/** Which instructions may stand in a balanced body, and one nested call from its bytes. */
module CallBodies {
  import opened BitStrings
  import opened Bytes
  import opened AddrDecoder
  import opened BusMemory
  import opened CpuRegisters
  import opened CpuMachine
  import opened Opcodes
  import opened AddressingModes
  import opened Instructions
  import opened CpuCore
  import opened StackRefinement
  import opened Calls
  import ReadModifyWrite

  // ---- instructions that leave the stack alone

  /** Arithmetic, comparisons, loads, branches, rotations (into A) and register moves other than into SP. */
  predicate LeavesStackAlone(mne: Mnemonic) {
    || GroupOf(mne) == ComputeGroup
    || (GroupOf(mne) == RegisterGroup && mne != TCS && mne != TXS && mne != XCE)
    || IsLoad(mne) || IsBranch(mne) || mne == ROL || mne == ROR
  }

  predicate IsLoad(mne: Mnemonic) { mne == LDA || mne == LDX || mne == LDY }

  predicate SameStack(s: Machine, t: Machine) { t.m == s.m && t.r.sp == s.r.sp }

  lemma SettersKeepSp(r: Regs)
    ensures forall v: u16 :: r.SetAcc(v).sp == r.sp && r.SetX(v).sp == r.sp && r.SetY(v).sp == r.sp
    ensures forall v: u16 :: r.SetAcc16(v).sp == r.sp
    ensures forall v: u16 :: r.SetDp(v).sp == r.sp
    ensures forall f: Flags :: r.SetFlags(f).sp == r.sp
    ensures forall f: Flags :: r.ResetFlags(f).sp == r.sp
  {
  }

  lemma AddKeepsStack(s: Machine, eff: Effective)
    ensures SameStack(s, Adc(s, eff)) && SameStack(s, Sbc(s, eff)) && SameStack(s, Cmp(s, eff))
  {
    hide Fetch, AddCarry, AddOverflow, Top, Signed16, Low, Word;
  }

  lemma CompareKeepsStack(s: Machine, reg: Reg, eff: Effective)
    ensures SameStack(s, CompareIndex(s, reg, eff)) && SameStack(s, BitTest(s, eff))
  {
    hide Fetch, BitAnd;
  }

  lemma LogicKeepsStack(s: Machine, op: BitOp, eff: Effective)
    ensures SameStack(s, Logic(s, op, eff))
  {
    hide Fetch, BitAnd, Combined;
  }

  lemma ComputeKeepsStack(s: Machine, mne: Mnemonic, eff: Effective)
    ensures SameStack(s, ExecuteCompute(s, mne, eff))
  {
    hide Adc, Sbc, Cmp, CompareIndex, Logic, BitTest;
    AddKeepsStack(s, eff);
    CompareKeepsStack(s, s.r.x, eff);
    CompareKeepsStack(s, s.r.y, eff);
    LogicKeepsStack(s, AndOp, eff);
    LogicKeepsStack(s, OrOp, eff);
    LogicKeepsStack(s, XorOp, eff);
  }

  lemma RegisterKeepsStack(r: Regs, mne: Mnemonic, eff: Effective)
    requires mne != TCS && mne != TXS && mne != XCE
    ensures RegisterOp(r, mne, eff).sp == r.sp
  {
    SettersKeepSp(r);
    SettersKeepSp(r.SetAcc16(Word(r.acc.High(), r.acc.Low())));
    hide Regs.SetAcc, Regs.SetX, Regs.SetY, Regs.SetAcc16, Regs.SetDp, Regs.SetFlags, Regs.ResetFlags, FromByte;
  }

  lemma LoadKeepsStack(s: Machine, mne: Mnemonic, eff: Effective)
    requires IsLoad(mne)
    ensures SameStack(s, Execute(s, mne, eff))
  {
    hide Execute, Fetch;
    if mne == LDA {
      ExecuteLda(s, eff);
    } else if mne == LDX {
      ExecuteLdx(s, eff);
    } else {
      ExecuteLdy(s, eff);
    }
  }

  lemma BranchGroup(mne: Mnemonic)
    requires IsBranch(mne)
    ensures GroupOf(mne) == FlowGroup
  {
  }

  lemma BranchEither(s: Machine, eff: Effective)
    ensures SameStack(s, Branch(s, true, eff)) && SameStack(s, Branch(s, false, eff))
  {
  }

  lemma BranchKeepsStack(s: Machine, mne: Mnemonic, eff: Effective)
    requires IsBranch(mne)
    ensures SameStack(s, ExecuteFlow(s, mne, eff))
  {
    BranchEither(s, eff);
    hide Branch, Jmp, Jsr, Rts, Rtl, Rti, SameStack;
  }

  lemma RotateKeepsStack(s: Machine, mne: Mnemonic, eff: Effective)
    requires mne == ROL || mne == ROR
    ensures SameStack(s, ExecuteModify(s, mne, eff))
  {
    hide Fetch, Top;
  }

  lemma LeavesStack(s: Machine, mne: Mnemonic, eff: Effective)
    requires LeavesStackAlone(mne)
    ensures SameStack(s, Execute(s, mne, eff))
  {
    hide Execute, ExecuteCompute, ExecuteModify, ExecuteFlow, RegisterOp, IsLoad, IsBranch;
    if mne == ROL || mne == ROR {
      RotateKeepsStack(s, mne, eff);
      DispatchModify(s, mne, eff);
      return;
    }
    hide GroupOf;
    if IsLoad(mne) {
      LoadKeepsStack(s, mne, eff);
    } else if IsBranch(mne) {
      BranchGroup(mne);
      BranchKeepsStack(s, mne, eff);
      DispatchFlow(s, mne, eff);
    } else if GroupOf(mne) == ComputeGroup {
      ComputeKeepsStack(s, mne, eff);
      DispatchCompute(s, mne, eff);
    } else {
      RegisterKeepsStack(s.r, mne, eff);
      DispatchRegister(s, mne, eff);
    }
  }

  // ---- stores

  /** The byte at the address is not one of the caller's on the stack. */
  predicate Spares(addr: u32, entry: int) {
    var c := CellOf(addr);
    !(c.WramCell? && entry < c.index < LOW_PAGE)
  }

  /** Nothing on the stack above `entry` differs, and the pointer is the same. */
  predicate Spared(s: Machine, t: Machine, entry: int)
    requires |s.m.wram| == WRAM_SIZE && -1 <= entry
  {
    && t.r.sp == s.r.sp && |t.m.wram| == WRAM_SIZE
    && forall i :: entry < i < LOW_PAGE ==> t.m.wram[i] == s.m.wram[i]
  }

  lemma StoreSpares(s: Machine, addr: u32, v: u8, entry: int)
    requires |s.m.wram| == WRAM_SIZE && -1 <= entry && Spares(addr, entry)
    ensures Spared(s, s.Store(addr, v), entry)
  {
    hide CellOf;
  }

  predicate IsStore(mne: Mnemonic) { mne == STA || mne == STX || mne == STY || mne == STZ || mne == STP }

  predicate IsModify(mne: Mnemonic) {
    mne == INC || mne == DEC || mne == ASL || mne == LSR || mne == TRB || mne == TSB
  }

  /** The bytes such an instruction may write. */
  function StoreSize(r: Regs, mne: Mnemonic): nat {
    if mne == STX then SizeOf(r.x.len) else if mne == STY then SizeOf(r.y.len)
    else if mne == STZ then (if !r.emulation && !r.p.m then 2 else 1)
    else if mne == STP then 1 else SizeOf(r.acc.len)
  }

  predicate SparesBytes(eff: Effective, size: nat, entry: int) {
    Spares(eff.address, entry) && (size == 2 ==> Spares(Trunc32(eff.address + 1), entry))
  }

  lemma StoreRegSpares(s: Machine, reg: Reg, eff: Effective, entry: int)
    requires |s.m.wram| == WRAM_SIZE && -1 <= entry && SparesBytes(eff, SizeOf(reg.len), entry)
    ensures Spared(s, StoreReg(s, reg, eff), entry)
  {
    hide BusMemory.Write, Spares, Low, High;
    var t := s.Store(eff.address, reg.Low());
    StoreSpares(s, eff.address, reg.Low(), entry);
    if reg.len == Sixteen {
      StoreSpares(t, Trunc32(eff.address + 1), reg.High(), entry);
    }
  }

  lemma StzSpares(s: Machine, eff: Effective, entry: int)
    requires |s.m.wram| == WRAM_SIZE && -1 <= entry && SparesBytes(eff, StoreSize(s.r, STZ), entry)
    ensures Spared(s, Stz(s, eff), entry)
  {
    hide BusMemory.Write, Spares;
    StoreSpares(s, eff.address, 0, entry);
    if !s.r.emulation && !s.r.p.m {
      StoreSpares(s.Store(eff.address, 0), Trunc32(eff.address + 1), 0, entry);
    }
  }

  lemma StoreDataSpares(s: Machine, eff: Effective, data: u16, size: nat, entry: int)
    requires |s.m.wram| == WRAM_SIZE && -1 <= entry
    requires !eff.kind.AccumulatorOperand? ==> SparesBytes(eff, size, entry)
    ensures Spared(s, StoreData(s, eff, data, size), entry)
  {
    hide BusMemory.Write, Spares, Low, High, Word, Signed8, Signed16;
    if !eff.kind.AccumulatorOperand? {
      StoreSpares(s, eff.address, Low(data), entry);
      var t := s.Store(eff.address, Low(data));
      var u := t.WithRegs(t.r.Update8(Low(data)));
      if size == 2 {
        StoreSpares(u, Trunc32(eff.address + 1), High(data), entry);
      }
    }
  }

  lemma TestBitsSpares(s: Machine, eff: Effective, on: bool, entry: int)
    requires |s.m.wram| == WRAM_SIZE && -1 <= entry && SparesBytes(eff, SizeOf(s.r.acc.len), entry)
    ensures Spared(s, TestBits(s, eff, on), entry)
  {
    hide BusMemory.Write, BusMemory.Read, Spares, Low, High, BitAnd, BitOr;
    forall result: u16
      ensures Spared(s, s.Store(eff.address, Low(result)), entry)
    {
      StoreSpares(s, eff.address, Low(result), entry);
    }
    if s.r.acc.len == Sixteen {
      forall result: u16
        ensures var t := s.Store(eff.address, Low(result));
                Spared(t, t.Store(Trunc32(eff.address + 1), High(result)), entry)
      {
        StoreSpares(s.Store(eff.address, Low(result)), Trunc32(eff.address + 1), High(result), entry);
      }
    }
  }

  lemma PutCarrySpares(s: Machine, t: Machine, c: bool, entry: int)
    requires |s.m.wram| == WRAM_SIZE && -1 <= entry && Spared(s, t, entry)
    ensures Spared(s, t.WithRegs(t.r.PutC(c)), entry)
  {
  }

  lemma IncDecSpares(s: Machine, eff: Effective, delta: int, entry: int)
    requires |s.m.wram| == WRAM_SIZE && -1 <= entry
    requires eff.kind.AccumulatorOperand? || SparesBytes(eff, SizeOf(s.r.acc.len), entry)
    ensures Spared(s, IncDec(s, eff, delta), entry)
  {
    hide Fetch, StoreData, Spared, SparesBytes, Trunc16;
    var size := SizeOf(s.r.acc.len);
    StoreDataSpares(s, eff, Trunc16(Fetch(s, eff, size) + delta), size, entry);
  }

  lemma ShiftSpares(s: Machine, eff: Effective, entry: int)
    requires |s.m.wram| == WRAM_SIZE && -1 <= entry
    requires eff.kind.AccumulatorOperand? || SparesBytes(eff, SizeOf(s.r.acc.len), entry)
    ensures Spared(s, Asl(s, eff), entry) && Spared(s, Lsr(s, eff), entry)
  {
    hide Fetch, StoreData, Spared, SparesBytes, Trunc16;
    var size := SizeOf(s.r.acc.len);
    var value: int := Fetch(s, eff, size);
    StoreDataSpares(s, eff, Trunc16(2 * value), size, entry);
    PutCarrySpares(s, StoreData(s, eff, Trunc16(2 * value), size), value % 2 == 1, entry);
    StoreDataSpares(s, eff, value / 2, size, entry);
    PutCarrySpares(s, StoreData(s, eff, value / 2, size), value % 2 == 1, entry);
  }

  lemma ModifySpares(s: Machine, mne: Mnemonic, eff: Effective, entry: int)
    requires |s.m.wram| == WRAM_SIZE && -1 <= entry && IsModify(mne)
    requires SparesBytes(eff, SizeOf(s.r.acc.len), entry) ||
             (eff.kind.AccumulatorOperand? && mne != TRB && mne != TSB)
    ensures Spared(s, ExecuteModify(s, mne, eff), entry)
  {
    hide Spared, SparesBytes, TestBits, IncDec, Asl, Lsr, ExecuteModify;
    ModifyMeans(s, mne, eff);
    if mne == TRB || mne == TSB {
      TestBitsSpares(s, eff, mne == TSB, entry);
    } else if mne == ASL || mne == LSR {
      ShiftSpares(s, eff, entry);
    } else {
      IncDecSpares(s, eff, if mne == INC then 1 else -1, entry);
    }
  }

  lemma ModifyMeans(s: Machine, mne: Mnemonic, eff: Effective)
    requires IsModify(mne)
    ensures ExecuteModify(s, mne, eff) ==
            if mne == TRB || mne == TSB then TestBits(s, eff, mne == TSB)
            else if mne == ASL then Asl(s, eff)
            else if mne == LSR then Lsr(s, eff)
            else IncDec(s, eff, if mne == INC then 1 else -1)
  {
    hide TestBits, IncDec, Asl, Lsr, Rol, Ror;
  }

  lemma PlainStoreSpares(s: Machine, mne: Mnemonic, eff: Effective, entry: int)
    requires |s.m.wram| == WRAM_SIZE && -1 <= entry && IsStore(mne)
    requires SparesBytes(eff, StoreSize(s.r, mne), entry)
    ensures Spared(s, Execute(s, mne, eff), entry)
  {
    hide Execute, StoreReg, Stz, Spared, Flags.ToByte, BusMemory.Write;
    if mne == STA {
      ExecuteSta(s, eff);
      StoreRegSpares(s, s.r.acc, eff, entry);
    } else if mne == STX {
      ExecuteStx(s, eff);
      StoreRegSpares(s, s.r.x, eff, entry);
    } else if mne == STY {
      ExecuteSty(s, eff);
      StoreRegSpares(s, s.r.y, eff, entry);
    } else if mne == STZ {
      ExecuteStz(s, eff);
      StzSpares(s, eff, entry);
    } else {
      ExecuteStp(s, eff);
      StoreSpares(s, eff.address, s.r.p.ToByte(), entry);
    }
  }

  // ---- pushes and pulls

  /** The bytes an instruction pushes. */
  function PushedBytes(mne: Mnemonic, r: Regs): nat {
    match mne
    case PHA => SizeOf(r.acc.len)
    case PHX => SizeOf(r.x.len)
    case PHY => SizeOf(r.y.len)
    case PHB | PHK | PHP => 1
    case PHD | PEA | PEI | PER => 2
    case _ => 0
  }

  /** And those it pulls. */
  function PulledBytes(mne: Mnemonic, r: Regs): nat {
    match mne
    case PLA => SizeOf(r.acc.len)
    case PLX => SizeOf(r.x.len)
    case PLY => SizeOf(r.y.len)
    case PLB | PLP => 1
    case PLD => 2
    case _ => 0
  }

  lemma PushByteKeeps(s: Machine, v: u8, entry: int)
    requires OnLowPage(s) && 0 <= Level(s.r.sp.value) <= entry < LOW_PAGE
    ensures Keeps(s, s.Push(v), entry)
  {
    hide BusMemory.Write;
    PushCell(s, v);
  }

  lemma PushWordKeeps(s: Machine, v: u16, entry: int)
    requires OnLowPage(s) && 1 <= Level(s.r.sp.value) <= entry < LOW_PAGE
    ensures Keeps(s, s.PushWord(v), entry)
  {
    hide BusMemory.Write;
    PushWordCells(s, v);
    hide Machine.PushWord;
  }

  lemma PushRegKeeps(s: Machine, reg: Reg, entry: int)
    requires OnLowPage(s) && SizeOf(reg.len) - 1 <= Level(s.r.sp.value) <= entry < LOW_PAGE
    ensures Keeps(s, PushReg(s, reg), entry)
  {
    hide Keeps, Machine.PushWord, Machine.Push;
    if reg.len == Sixteen {
      PushWordKeeps(s, reg.value, entry);
    } else {
      PushByteKeeps(s, reg.Low(), entry);
    }
  }

  lemma PushKeeps(s: Machine, mne: Mnemonic, eff: Effective, entry: int)
    requires OnLowPage(s) && Level(s.r.sp.value) <= entry < LOW_PAGE
    requires 0 < PushedBytes(mne, s.r) <= Level(s.r.sp.value) + 1
    ensures GroupOf(mne) == PushGroup && Keeps(s, ExecutePush(s, mne, eff), entry)
  {
    hide Fetch, PushReg, Keeps, Machine.PushWord, Machine.Push, Flags.ToByte, OnLowPage;
    match mne {
      case PHA => PushRegKeeps(s, s.r.acc, entry);
      case PHX => PushRegKeeps(s, s.r.x, entry);
      case PHY => PushRegKeeps(s, s.r.y, entry);
      case PHB => PushByteKeeps(s, s.r.dbr, entry);
      case PHK => PushByteKeeps(s, s.r.pbr, entry);
      case PHP => PushByteKeeps(s, s.r.p.ToByte(), entry);
      case PHD => PushWordKeeps(s, s.r.dp, entry);
      case PEA => PushWordKeeps(s, Fetch(s, eff, 2), entry);
      case PEI => PushWordKeeps(s, Fetch(s, eff, 2), entry);
      case PER => PushWordKeeps(s, Fetch(s, eff, 2), entry);
    }
  }

  lemma PullKeeps(s: Machine, k: Saved, entry: int)
    requires OnLowPage(s) && Level(s.r.sp.value) + SizeOf(RegOf(k, s.r).len) <= entry < LOW_PAGE
    ensures Keeps(s, PullInto(s, k), entry)
  {
    PullIntoEffect(s, k);
    hide PullInto, BusMemory.Read;
    if RegOf(k, s.r).len == Sixteen {
      PullWordCells(s);
    } else {
      PullCell(s);
    }
  }

  lemma PlpKeeps(s: Machine, entry: int)
    requires OnLowPage(s) && Level(s.r.sp.value) + 1 <= entry < LOW_PAGE
    ensures Keeps(s, Plp(s), entry)
  {
    hide BusMemory.Read, FromByte;
    PullCell(s);
  }

  function SavedBy(mne: Mnemonic): Saved {
    if mne == PLA then SavedA else if mne == PLX then SavedX else if mne == PLY then SavedY
    else if mne == PLD then SavedD else SavedB
  }

  lemma PullInstructionKeeps(s: Machine, mne: Mnemonic, eff: Effective, entry: int)
    requires OnLowPage(s) && 0 < PulledBytes(mne, s.r)
    requires Level(s.r.sp.value) + PulledBytes(mne, s.r) <= entry < LOW_PAGE
    ensures Keeps(s, Execute(s, mne, eff), entry)
  {
    hide Execute, PullInto, Keeps, Plp, OnLowPage;
    if mne == PLP {
      ExecutePlp(s, eff);
      PlpKeeps(s, entry);
    } else {
      PullKeeps(s, SavedBy(mne), entry);
      ExecutedPull(s, SavedBy(mne), eff);
    }
  }

  // ---- all of them

  /**
   What may stand in a body entered at level `entry`: an instruction that leaves the stack alone, a
   store or modification of bytes that are not the caller's, a push that fits the low page, and a
   pull of what the body itself has pushed.
   */
  predicate MayStand(s: Machine, mne: Mnemonic, eff: Effective, entry: int) {
    var l := Level(s.r.sp.value);
    || LeavesStackAlone(mne)
    || ((IsStore(mne) || IsModify(mne)) && SparesBytes(eff, StoreSize(s.r, mne), entry))
    || (IsModify(mne) && mne != TRB && mne != TSB && eff.kind.AccumulatorOperand?)
    || 0 < PushedBytes(mne, s.r) <= l + 1
    || (0 < PulledBytes(mne, s.r) && l + PulledBytes(mne, s.r) <= entry)
  }

  lemma SparedKeeps(s: Machine, t: Machine, entry: int)
    requires OnLowPage(s) && Level(s.r.sp.value) <= entry < LOW_PAGE && -1 <= entry && Spared(s, t, entry)
    ensures Keeps(s, t, entry)
  {
  }

  lemma StoreStands(s: Machine, mne: Mnemonic, eff: Effective, entry: int)
    requires OnLowPage(s) && Level(s.r.sp.value) <= entry < LOW_PAGE
    requires IsStore(mne) && SparesBytes(eff, StoreSize(s.r, mne), entry)
    ensures Keeps(s, Execute(s, mne, eff), entry)
  {
    hide Execute, SparesBytes, StoreSize, Keeps, Spared, IsStore;
    PlainStoreSpares(s, mne, eff, entry);
    SparedKeeps(s, Execute(s, mne, eff), entry);
  }

  lemma ModifyGroupOf(mne: Mnemonic)
    requires IsModify(mne)
    ensures GroupOf(mne) == ModifyGroup
  {
  }

  lemma ModifyStands(s: Machine, mne: Mnemonic, eff: Effective, entry: int)
    requires OnLowPage(s) && Level(s.r.sp.value) <= entry < LOW_PAGE && IsModify(mne)
    requires SparesBytes(eff, SizeOf(s.r.acc.len), entry) ||
             (eff.kind.AccumulatorOperand? && mne != TRB && mne != TSB)
    ensures Keeps(s, Execute(s, mne, eff), entry)
  {
    hide Execute, ExecuteModify, SparesBytes, Keeps, Spared, GroupOf, IsModify;
    ModifySpares(s, mne, eff, entry);
    ModifyGroupOf(mne);
    DispatchModify(s, mne, eff);
    SparedKeeps(s, Execute(s, mne, eff), entry);
  }

  lemma AloneStands(s: Machine, mne: Mnemonic, eff: Effective, entry: int)
    requires OnLowPage(s) && Level(s.r.sp.value) <= entry < LOW_PAGE && LeavesStackAlone(mne)
    ensures Keeps(s, Execute(s, mne, eff), entry)
  {
    hide Execute, LeavesStackAlone, Keeps, Spared;
    LeavesStack(s, mne, eff);
    AloneSpares(s, Execute(s, mne, eff), entry);
    SparedKeeps(s, Execute(s, mne, eff), entry);
  }

  lemma PushStands(s: Machine, mne: Mnemonic, eff: Effective, entry: int)
    requires OnLowPage(s) && Level(s.r.sp.value) <= entry < LOW_PAGE
    requires 0 < PushedBytes(mne, s.r) <= Level(s.r.sp.value) + 1
    ensures Keeps(s, Execute(s, mne, eff), entry)
  {
    hide Execute, ExecutePush, PushedBytes, Keeps, GroupOf;
    PushKeeps(s, mne, eff, entry);
    DispatchPush(s, mne, eff);
  }

  lemma StandingKeeps(s: Machine, mne: Mnemonic, eff: Effective, entry: int)
    requires OnLowPage(s) && Level(s.r.sp.value) <= entry < LOW_PAGE && MayStand(s, mne, eff, entry)
    ensures Keeps(s, Execute(s, mne, eff), entry)
  {
    ModifySize(s.r, mne);
    hide Execute, SparesBytes, PushedBytes, PulledBytes, Keeps, LeavesStackAlone, StoreSize, IsStore, IsModify;
    if LeavesStackAlone(mne) {
      AloneStands(s, mne, eff, entry);
    } else if IsStore(mne) && SparesBytes(eff, StoreSize(s.r, mne), entry) {
      StoreStands(s, mne, eff, entry);
    } else if 0 < PushedBytes(mne, s.r) <= Level(s.r.sp.value) + 1 {
      PushStands(s, mne, eff, entry);
    } else if 0 < PulledBytes(mne, s.r) && Level(s.r.sp.value) + PulledBytes(mne, s.r) <= entry {
      PullInstructionKeeps(s, mne, eff, entry);
    } else {
      ModifyStands(s, mne, eff, entry);
    }
  }

  lemma ModifySize(r: Regs, mne: Mnemonic)
    ensures IsModify(mne) ==> StoreSize(r, mne) == SizeOf(r.acc.len)
  {
  }

  lemma AloneSpares(s: Machine, t: Machine, entry: int)
    requires |s.m.wram| == WRAM_SIZE && -1 <= entry && SameStack(s, t)
    ensures Spared(s, t, entry)
  {
  }

  /** Each of them keeps what the caller stacked, so it meets what a balanced body asks of its own instructions. */
  lemma PlainInstructions(c: Cpu, junk: u32, entry: int)
    requires OnLowPage(c.s) && Level(c.s.r.sp.value) <= entry < LOW_PAGE
    requires MayStand(c.s, c.cur.opcode.mne,
                      Resolve(c.s, c.cur.opcode.mne, c.cur.opcode.mode, c.cur.operand, junk), entry)
    ensures Keeps(c.s, Step(c, junk).s, entry)
  {
    hide Execute, Resolve, Prefetch, MayStand;
    var mne := c.cur.opcode.mne;
    StandingKeeps(c.s, mne, Resolve(c.s, mne, c.cur.opcode.mode, c.cur.operand, junk), entry);
    PrefetchKeepsStack(Executed(c, junk));
  }

  // ---- a call within a call, from its bytes

  function JsrBytes(target: u16): (b: seq<u8>)
    ensures |b| == 3
  {
    [0x20, Low(target), High(target)]
  }

  const RTS_BYTE: seq<u8> := [0x60]

  /** Code off the stack cells above level `low` up to `high`. */
  predicate CodeOffStack(pc: u16, length: nat, low: int, high: int) { CodeOutside(pc, length, low + 1, high + 1) }

  /** Only stack cells above level `low` up to `high` changed. */
  predicate OnlyStackChanged(m: Memory, m': Memory, low: int, high: int) { OnlyWramChanged(m, m', low + 1, high + 1) }

  lemma StackCodeHolds(m: Memory, m': Memory, pc: u16, code: seq<u8>, low: int, high: int)
    requires Holds(m, pc, code) && OnlyStackChanged(m, m', low, high) && CodeOffStack(pc, |code|, low, high)
    ensures Holds(m', pc, code)
  {
    CodeHolds(m, m', pc, code, low + 1, high + 1);
  }

  lemma CallOpcodes()
    ensures Ops(0x20) == Opcode(JSR, Absolute) && Ops(0x60) == Opcode(RTS, StackRTS)
  {
  }

  lemma JsrFetched(s: Machine, target: u16)
    requires s.r.pbr == 0 && Holds(s.m, s.r.pc, JsrBytes(target))
    ensures Prefetch(s).cur == Instruction(0x20, Opcode(JSR, Absolute), 2, target)
    ensures Prefetch(s).s == s.WithRegs(s.r.(pc := Trunc16(s.r.pc + 3)))
  {
    CallOpcodes();
    SmallOperands(target, 0);
    hide BusMemory.Read, Holds, Ops, OperandAt, Prefetch, LittleEndian, Power256, Low, High;
    assert JsrBytes(target)[0..3] == [0x20] + LittleEndian(target, 2);
    FetchWithin(s, s.r.pc, JsrBytes(target), 0, 0x20, target);
  }

  lemma RtsFetched(s: Machine)
    requires s.r.pbr == 0 && Holds(s.m, s.r.pc, RTS_BYTE)
    ensures Prefetch(s).cur.opcode == Opcode(RTS, StackRTS)
    ensures Prefetch(s).s == s.WithRegs(s.r.(pc := Trunc16(s.r.pc + 1)))
  {
    CallOpcodes();
    SmallOperands(0, 0);
    hide BusMemory.Read, Holds, Ops, OperandAt, Prefetch, LittleEndian, Power256;
    assert RTS_BYTE[0..1] == [0x60] + LittleEndian(0, 0);
    FetchWithin(s, s.r.pc, RTS_BYTE, 0, 0x60, 0);
  }

  lemma AbsoluteJump(s: Machine, target: u16, junk: u32)
    requires s.r.pbr == 0
    ensures Resolve(s, JSR, Absolute, target, junk) == Effective(SimpleAddress, target)
  {
  }

  /** At the target of a JSR: the return address stacked, and nothing else changed. */
  predicate Entered(s: Machine, t: Machine, target: u16, back: u16)
    requires OnLowPage(s) && Level(s.r.sp.value) >= 1
  {
    var l := Level(s.r.sp.value);
    && OnLowPage(t) && Level(t.r.sp.value) == l - 2 && t.r.pbr == s.r.pbr && t.r.pc == target
    && OnlyStackChanged(s.m, t.m, l - 2, l)
    && Word(t.m.wram[l - 1], t.m.wram[l]) == back
  }

  lemma JsrEnters(s: Machine, target: u16)
    requires OnLowPage(s) && Level(s.r.sp.value) >= 1
    ensures Entered(s, Jsr(s, Effective(SimpleAddress, target)), target, Trunc16(s.r.pc - 1))
  {
    hide Machine.PushWord, Low, High, Word, BusMemory.Write;
    var back := Trunc16(s.r.pc - 1);
    PushWordCells(s, back);
    ReadModifyWrite.ParsedWord(back);
  }

  lemma EnteredFrom(s: Machine, s': Machine, t: Machine, target: u16, back: u16)
    requires OnLowPage(s) && Level(s.r.sp.value) >= 1 && s'.m == s.m && s'.r == s.r.(pc := s'.r.pc)
    requires Entered(s', t, target, back)
    ensures Entered(s, t, target, back)
  {
  }

  /** A JSR from its bytes. */
  lemma JsrTurn(s: Machine, target: u16, junk: u32)
    requires OnLowPage(s) && Level(s.r.sp.value) >= 1 && s.r.pbr == 0 && Holds(s.m, s.r.pc, JsrBytes(target))
    ensures Entered(s, Turn(s, junk), target, Trunc16(s.r.pc + 2))
  {
    hide Execute, Resolve, Prefetch, Holds, Jsr, Entered;
    JsrFetched(s, target);
    var c := Prefetch(s);
    AbsoluteJump(c.s, target, junk);
    ExecuteJsr(c.s, Effective(SimpleAddress, target));
    JsrEnters(c.s, target);
    EnteredFrom(s, c.s, Turn(s, junk), target, Trunc16(c.s.r.pc - 1));
    assert Trunc16(c.s.r.pc - 1) == Trunc16(s.r.pc + 2);
  }

  /** The bytes of two subroutines: the outer one calls the inner one and returns, the inner one returns. */
  predicate NestedCode(m: Memory, pc: u16, outer: u16, inner: u16) {
    && Holds(m, pc, JsrBytes(outer))
    && Holds(m, outer, JsrBytes(inner)) && Holds(m, Trunc16(outer + 3), RTS_BYTE)
    && Holds(m, inner, RTS_BYTE)
  }

  predicate NestedOffStack(outer: u16, inner: u16, l: int) {
    && CodeOffStack(outer, 3, l - 4, l) && CodeOffStack(Trunc16(outer + 3), 1, l - 4, l)
    && CodeOffStack(inner, 1, l - 4, l)
  }

  lemma NarrowerOffStack(m: Memory, m': Memory, low: int, high: int, low': int, high': int)
    requires low' <= low && high <= high' && OnlyStackChanged(m, m', low, high)
    ensures OnlyStackChanged(m, m', low', high')
  {
  }

  /** A call of a subroutine that is only an RTS. */
  lemma LeafCallReturns(s: Machine, target: u16, call: u32, back: u32)
    requires OnLowPage(s) && Level(s.r.sp.value) >= 1 && s.r.pbr == 0
    requires Holds(s.m, s.r.pc, JsrBytes(target)) && Holds(s.m, target, RTS_BYTE)
    requires CodeOffStack(target, 1, Level(s.r.sp.value) - 2, Level(s.r.sp.value))
    ensures var c := Prefetch(s); var l := Level(s.r.sp.value); var t := Final(Return(back), Step(c, call));
            && c.cur.opcode.mne == JSR && Balanced(Return(back), Step(c, call), l - 2)
            && OnLowPage(t) && Level(t.r.sp.value) == l && t.r.pbr == 0 && t.r.pc == Trunc16(s.r.pc + 3)
            && OnlyStackChanged(s.m, t.m, l - 2, l)
  {
    hide Holds, Turn, Prefetch, Executed, CodeOffStack, OnlyStackChanged, Word;
    JsrFetched(s, target);
    JsrTurn(s, target, call);
    TurnIsStep(s, call);
    var u := Turn(s, call);
    StackCodeHolds(s.m, u.m, target, RTS_BYTE, Level(s.r.sp.value) - 2, Level(s.r.sp.value));
    RtsTurn(u, back);
    NextAfterCall(s.r.pc);
  }

  lemma NextAfterCall(pc: u16)
    ensures Trunc16(Trunc16(pc + 2) + 1) == Trunc16(pc + 3)
  {
  }

  /** An RTS from its byte. */
  lemma RtsTurn(s: Machine, back: u32)
    requires OnLowPage(s) && s.r.pbr == 0 && Holds(s.m, s.r.pc, RTS_BYTE) && Level(s.r.sp.value) + 2 < LOW_PAGE
    ensures var l, t := Level(s.r.sp.value), Executed(Prefetch(s), back);
            && Prefetch(s).cur.opcode.mne == RTS && Level(Prefetch(s).s.r.sp.value) == l
            && OnLowPage(t) && Level(t.r.sp.value) == l + 2 && t.m == s.m && t.r.pbr == 0
            && t.r.pc == Trunc16(Word(s.m.wram[l + 1], s.m.wram[l + 2]) + 1)
  {
    hide Holds, Prefetch, Executed, Word;
    RtsFetched(s);
    PrefetchKeepsStack(s);
    RtsExecuted(Prefetch(s), back);
  }

  /** JSR to a subroutine that calls another one: a balanced tree, wherever the three pieces of code are. */
  lemma NestedCallIsBalanced(s: Machine, outer: u16, inner: u16, junks: seq<u32>)
    requires OnLowPage(s) && Level(s.r.sp.value) >= 3 && s.r.pbr == 0 && |junks| == 4
    requires NestedCode(s.m, s.r.pc, outer, inner) && NestedOffStack(outer, inner, Level(s.r.sp.value))
    ensures var c := Prefetch(s); var tree := Body.Call(junks[1], Return(junks[2]), Return(junks[3]));
            && c.cur.opcode.mne == JSR
            && Balanced(tree, Step(c, junks[0]), Level(s.r.sp.value) - 2)
            && BackFromCall(c, Final(tree, Step(c, junks[0])))
  {
    hide Holds, Turn, Prefetch, Executed, CodeOffStack, OnlyStackChanged, SameAbove, BackFromCallSteps;
    var l, s1 := Level(s.r.sp.value), Turn(s, junks[0]);
    JsrFetched(s, outer);
    JsrTurn(s, outer, junks[0]);
    TurnIsStep(s, junks[0]);
    NarrowerOffStack(s.m, s1.m, l - 2, l, l - 4, l);
    StackCodeHolds(s.m, s1.m, outer, JsrBytes(inner), l - 4, l);
    StackCodeHolds(s.m, s1.m, Trunc16(outer + 3), RTS_BYTE, l - 4, l);
    StackCodeHolds(s.m, s1.m, inner, RTS_BYTE, l - 4, l);
    NarrowCode(inner, 1, l - 4, l, l - 4, l - 2);
    LeafCallReturns(s1, inner, junks[1], junks[2]);
    var s3 := Final(Return(junks[2]), Step(Prefetch(s1), junks[1]));
    NarrowerOffStack(s1.m, s3.m, l - 4, l - 2, l - 4, l);
    StackCodeHolds(s1.m, s3.m, Trunc16(outer + 3), RTS_BYTE, l - 4, l);
    RtsFetched(s3);
    PrefetchKeepsStack(s3);
    PrefetchKeepsStack(s1);
    PrefetchKeepsStack(s);
    CallReturns(Prefetch(s), junks[0], Body.Call(junks[1], Return(junks[2]), Return(junks[3])));
  }

  lemma NarrowCode(pc: u16, length: nat, low: int, high: int, low': int, high': int)
    requires CodeOffStack(pc, length, low, high) && low <= low' && high' <= high
    ensures CodeOffStack(pc, length, low', high')
  {
    var bottom, top := low' + 1, high' + 1;
    forall i | 0 <= i < length
      ensures ByteOutside(pc, i, bottom, top)
    {
      assert ByteOutside(pc, i, low + 1, high + 1);
    }
  }

  lemma TurnIsStep(s: Machine, junk: u32)
    ensures Step(Prefetch(s), junk) == Prefetch(Turn(s, junk))
  {
    hide Prefetch, Executed;
  }
}
