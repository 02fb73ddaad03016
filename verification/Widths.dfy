/** The two records of register width, the M and X bits and the `len` fields, over whole runs. */
module Widths {
  import opened BitStrings
  import opened Bytes
  import opened BusMemory
  import opened CpuRegisters
  import opened CpuMachine
  import opened Opcodes
  import opened AddressingModes
  import opened Instructions
  import opened CpuCore

  /** What holds always: the bits never promise fewer bits than the registers have. */
  predicate Consistent(r: Regs) {
    && (r.p.m ==> r.acc.len == Eight)
    && (r.p.x ==> r.x.len == Eight)
    && r.x.len == r.y.len
    && r.sp.len == Sixteen
  }

  /** In native mode the bits and the lengths say the same. */
  predicate NativeExact(r: Regs) {
    Consistent(r) && (!r.emulation ==> (r.p.m <==> r.acc.len == Eight) && (r.p.x <==> r.x.len == Eight))
  }

  /** And in emulation mode everything is 8 bits long. */
  predicate Synced(r: Regs) {
    NativeExact(r) && (r.emulation ==> r.acc.len == Eight && r.x.len == Eight)
  }

  /** Everything that has to do with widths. */
  datatype View = View(m: bool, x: bool, emulation: bool, acc: Width, xLen: Width, yLen: Width, sp: Width)

  function ViewOf(r: Regs): View {
    View(r.p.m, r.p.x, r.emulation, r.acc.len, r.x.len, r.y.len, r.sp.len)
  }

  predicate SameWidths(r: Regs, r': Regs) { ViewOf(r) == ViewOf(r') }

  predicate ChangesWidths(mne: Mnemonic) { mne == REP || mne == SEP || mne == XCE || mne == PLP || mne == RTI }

  // ---- all other instructions leave every width alone

  lemma AccumulatorKeepsWidths(r: Regs, v: u16)
    ensures SameWidths(r, r.SetAcc(v)) && SameWidths(r, r.SetAcc16(v)) && SameWidths(r, r.SetSp(v))
  {
    hide Low, Word, Signed8, Signed16;
  }

  lemma IndexKeepsWidths(r: Regs, v: u16)
    ensures SameWidths(r, r.SetX(v)) && SameWidths(r, r.SetY(v)) && SameWidths(r, r.SetDp(v))
    ensures SameWidths(r, r.Update16(v))
  {
    hide Low, Signed8, Signed16;
  }

  lemma AllSettersKeepWidths()
    ensures forall r: Regs, v: u16 :: SameWidths(r, r.SetAcc(v))
    ensures forall r: Regs, v: u16 :: SameWidths(r, r.SetX(v))
    ensures forall r: Regs, v: u16 :: SameWidths(r, r.SetY(v))
    ensures forall r: Regs, v: u16 :: SameWidths(r, r.SetAcc16(v))
    ensures forall r: Regs, v: u16 :: SameWidths(r, r.SetDp(v))
    ensures forall r: Regs, v: u16 :: SameWidths(r, r.SetSp(v))
    ensures forall r: Regs, v: u8 :: SameWidths(r, r.SetDbr(v))
    ensures forall r: Regs, v: u8 :: SameWidths(r, r.Update8(v))
    ensures forall r: Regs, v: u16 :: SameWidths(r, r.Update16(v))
  {
    hide Regs.SetAcc, Regs.SetX, Regs.SetY, Regs.SetAcc16, Regs.SetDp, Regs.SetSp, Regs.Update16, Signed8;
    forall r: Regs, v: u16
      ensures SameWidths(r, r.SetAcc(v)) && SameWidths(r, r.SetX(v)) && SameWidths(r, r.SetY(v))
      ensures SameWidths(r, r.SetAcc16(v)) && SameWidths(r, r.SetDp(v)) && SameWidths(r, r.SetSp(v))
      ensures SameWidths(r, r.Update16(v))
    {
      AccumulatorKeepsWidths(r, v);
      IndexKeepsWidths(r, v);
    }
  }

  lemma FlagsKeepWidths(r: Regs)
    ensures SameWidths(r, r.ResetFlags(FLAG_C)) && SameWidths(r, r.ResetFlags(FLAG_D))
    ensures SameWidths(r, r.ResetFlags(FLAG_I)) && SameWidths(r, r.ResetFlags(FLAG_V))
    ensures SameWidths(r, r.SetFlags(FLAG_C)) && SameWidths(r, r.SetFlags(FLAG_D)) && SameWidths(r, r.SetFlags(FLAG_I))
  {
  }

  lemma RegisterOpWidths(r: Regs, mne: Mnemonic, eff: Effective)
    requires !ChangesWidths(mne)
    ensures SameWidths(r, RegisterOp(r, mne, eff))
  {
    AllSettersKeepWidths();
    FlagsKeepWidths(r);
    hide Regs.SetAcc, Regs.SetX, Regs.SetY, Regs.SetAcc16, Regs.SetDp, Regs.SetSp, Regs.Update8;
    hide Regs.SetFlags, Regs.ResetFlags, Xce, FromByte;
  }

  lemma AdcWidths(s: Machine, eff: Effective)
    ensures SameWidths(s.r, Adc(s, eff).r)
  {
    hide Fetch, AddCarry, AddOverflow;
  }

  lemma SbcWidths(s: Machine, eff: Effective)
    ensures SameWidths(s.r, Sbc(s, eff).r)
  {
    hide Fetch, Top, Signed16;
  }

  lemma CmpWidths(s: Machine, eff: Effective)
    ensures SameWidths(s.r, Cmp(s, eff).r)
  {
    hide Fetch;
  }

  lemma CompareWidths(s: Machine, reg: Reg, eff: Effective)
    ensures SameWidths(s.r, CompareIndex(s, reg, eff).r)
  {
    hide Fetch;
  }

  lemma LogicWidths(s: Machine, op: BitOp, eff: Effective)
    ensures SameWidths(s.r, Logic(s, op, eff).r) && SameWidths(s.r, BitTest(s, eff).r)
  {
    hide Fetch, BitAnd, Combined;
  }

  lemma ComputeWidths(s: Machine, mne: Mnemonic, eff: Effective)
    ensures SameWidths(s.r, ExecuteCompute(s, mne, eff).r)
  {
    hide Adc, Sbc, Cmp, CompareIndex, Logic, BitTest;
    AdcWidths(s, eff);
    SbcWidths(s, eff);
    CmpWidths(s, eff);
    CompareWidths(s, s.r.x, eff);
    CompareWidths(s, s.r.y, eff);
    LogicWidths(s, AndOp, eff);
    LogicWidths(s, OrOp, eff);
    LogicWidths(s, XorOp, eff);
  }

  lemma StoreDataWidths(s: Machine, eff: Effective, data: u16, size: nat)
    ensures SameWidths(s.r, StoreData(s, eff, data, size).r)
  {
    hide BusMemory.Write;
  }

  lemma ModifyWidths(s: Machine, mne: Mnemonic, eff: Effective)
    ensures SameWidths(s.r, ExecuteModify(s, mne, eff).r)
  {
    hide Fetch, StoreData, BitAnd, BitOr, BusMemory.Write, BusMemory.Read;
    var size := SizeOf(s.r.acc.len);
    forall data: u16
      ensures SameWidths(s.r, StoreData(s, eff, data, size).r)
    {
      StoreDataWidths(s, eff, data, size);
    }
  }

  lemma LoadStoreWidths(s: Machine, mne: Mnemonic, eff: Effective)
    ensures SameWidths(s.r, ExecuteLoadStore(s, mne, eff).r)
  {
    hide Fetch, BusMemory.Write;
  }

  lemma PullsKeepWidths(s: Machine)
    ensures SameWidths(s.r, s.Pull().0.r) && SameWidths(s.r, s.PullWord().0.r)
    ensures SameWidths(s.r, s.PullWord().0.Pull().0.r)
  {
    hide BusMemory.Read;
  }

  lemma PushesKeepWidths(s: Machine, v: u16)
    ensures SameWidths(s.r, s.Push(Low(v)).r) && SameWidths(s.r, s.PushWord(v).r)
  {
    hide BusMemory.Write;
  }

  lemma JumpWidths(s: Machine, eff: Effective)
    ensures SameWidths(s.r, Branch(s, true, eff).r) && SameWidths(s.r, Branch(s, false, eff).r)
    ensures SameWidths(s.r, Jmp(s, eff).r) && SameWidths(s.r, Jsr(s, eff).r)
  {
    hide Machine.PushWord;
    PushesKeepWidths(s, Trunc16(s.r.pc - 1));
  }

  lemma ReturnWidths(s: Machine)
    ensures SameWidths(s.r, Rts(s).r) && SameWidths(s.r, Rtl(s).r)
  {
    hide Machine.Pull, Machine.PullWord;
    PullsKeepWidths(s);
  }

  lemma FlowWidths(s: Machine, mne: Mnemonic, eff: Effective)
    requires mne != RTI
    ensures SameWidths(s.r, ExecuteFlow(s, mne, eff).r)
  {
    hide Branch, Jmp, Jsr, Rts, Rtl, Rti;
    JumpWidths(s, eff);
    ReturnWidths(s);
  }

  lemma PushWidths(s: Machine, mne: Mnemonic, eff: Effective)
    ensures SameWidths(s.r, ExecutePush(s, mne, eff).r)
  {
    hide Fetch, Machine.Push, Machine.PushWord, Flags.ToByte;
    forall v: u16
      ensures SameWidths(s.r, s.Push(Low(v)).r) && SameWidths(s.r, s.PushWord(v).r)
    {
      PushesKeepWidths(s, v);
    }
    forall v: u8
      ensures SameWidths(s.r, s.Push(v).r)
    {
      assert Low(v) == v;
      PushesKeepWidths(s, v);
    }
  }

  lemma PullWidths(s: Machine, mne: Mnemonic)
    requires mne != PLP
    ensures SameWidths(s.r, ExecutePull(s, mne).r)
  {
    hide Machine.Pull, Machine.PullWord, Regs.SetAcc, Regs.SetX, Regs.SetY, Regs.SetDp, Regs.SetDbr;
    PullsKeepWidths(s);
    AllSettersKeepWidths();
  }

  lemma KeepsWidths(s: Machine, mne: Mnemonic, eff: Effective)
    requires !ChangesWidths(mne)
    ensures SameWidths(s.r, Execute(s, mne, eff).r)
  {
    hide Execute, ExecuteCompute, ExecuteModify, ExecuteLoadStore, ExecuteFlow, ExecutePush, ExecutePull, RegisterOp;
    hide SameWidths;
    hide GroupOf;
    match GroupOf(mne)
    case ComputeGroup => DispatchCompute(s, mne, eff); ComputeWidths(s, mne, eff);
    case ModifyGroup => DispatchModify(s, mne, eff); ModifyWidths(s, mne, eff);
    case LoadStoreGroup => DispatchLoadStore(s, mne, eff); LoadStoreWidths(s, mne, eff);
    case FlowGroup => DispatchFlow(s, mne, eff); FlowWidths(s, mne, eff);
    case PushGroup => DispatchPush(s, mne, eff); PushWidths(s, mne, eff);
    case PullGroup => DispatchPull(s, mne, eff); PullWidths(s, mne);
    case RegisterGroup => DispatchRegister(s, mne, eff); RegisterOpWidths(s.r, mne, eff);
  }

  // ---- the five that do change widths

  /** The status bits a width-changing instruction works with. */
  function ForcedBits(s: Machine, mne: Mnemonic, eff: Effective): Flags {
    FromByte(if mne == PLP then s.Pull().1
             else if mne == RTI then s.PullWord().0.Pull().0.Pull().1
             else Trunc8(eff.address))
  }

  /** The registers after a width-changing instruction, program counter, bank and stack pointer aside. */
  function WidthChange(r: Regs, mne: Mnemonic, f: Flags): Regs
    requires ChangesWidths(mne)
  {
    if mne == REP then r.ResetFlags(f)
    else if mne == SEP then r.SetFlags(f)
    else if mne == XCE then Xce(r)
    else r.ForceFlags(f)
  }

  lemma PlpWidths(s: Machine, eff: Effective)
    ensures SameWidths(WidthChange(s.r, PLP, ForcedBits(s, PLP, eff)), ExecutePull(s, PLP).r)
  {
    hide FromByte, Machine.Pull, Machine.PullWord;
    PullsKeepWidths(s);
    assert ExecutePull(s, PLP) == Plp(s);
  }

  lemma ForceRespectsWidths(r: Regs, r': Regs, f: Flags)
    requires SameWidths(r, r')
    ensures SameWidths(r.ForceFlags(f), r'.ForceFlags(f))
  {
    ViewAfterForce(r, f);
    ViewAfterForce(r', f);
    hide Regs.ForceFlags;
  }

  lemma RtiWidths(s: Machine, eff: Effective)
    ensures SameWidths(WidthChange(s.r, RTI, ForcedBits(s, RTI, eff)), ExecuteFlow(s, RTI, eff).r)
  {
    hide FromByte, Machine.Pull, Machine.PullWord, Regs.ForceFlags, SameWidths;
    var f := ForcedBits(s, RTI, eff);
    var (t, pc) := s.PullWord();
    var (u, pbr) := t.Pull();
    var v := u.Pull().0;
    PullsKeepWidths(s);
    PullsKeepWidths(u);
    assert ExecuteFlow(s, RTI, eff) == Rti(s);
    hide ExecuteFlow;
    SameTrans(s.r, u.r, v.r, pc, pbr);
    ForceRespectsWidths(s.r, v.r.(pc := pc, pbr := pbr), f);
  }

  lemma SameTrans(r: Regs, r': Regs, r'': Regs, pc: u16, pbr: u8)
    requires SameWidths(r, r') && SameWidths(r', r'')
    ensures SameWidths(r, r''.(pc := pc, pbr := pbr))
  {
  }

  lemma RegisterChange(r: Regs, mne: Mnemonic, eff: Effective)
    requires mne == REP || mne == SEP || mne == XCE
    ensures RegisterOp(r, mne, eff) == WidthChange(r, mne, FromByte(Trunc8(eff.address)))
  {
    hide FromByte, Xce, Xba, Regs.ResetFlags, Regs.SetFlags, Regs.SetX, Regs.SetY, Regs.SetAcc, Regs.SetAcc16;
    hide Regs.SetDp, Regs.SetSp, Low;
  }

  lemma RegisterWidths(s: Machine, mne: Mnemonic, eff: Effective)
    requires mne == REP || mne == SEP || mne == XCE
    ensures SameWidths(WidthChange(s.r, mne, ForcedBits(s, mne, eff)), RegisterOp(s.r, mne, eff))
  {
    hide RegisterOp, WidthChange, FromByte, Machine.Pull, Machine.PullWord, SameWidths;
    RegisterChange(s.r, mne, eff);
    AlwaysSame(RegisterOp(s.r, mne, eff));
  }

  lemma AlwaysSame(r: Regs)
    ensures SameWidths(r, r)
  {
  }

  lemma PlpChanged(s: Machine, eff: Effective)
    ensures SameWidths(WidthChange(s.r, PLP, ForcedBits(s, PLP, eff)), Execute(s, PLP, eff).r)
  {
    hide Execute, ExecutePull, WidthChange, ForcedBits, SameWidths;
    DispatchPull(s, PLP, eff);
    PlpWidths(s, eff);
  }

  lemma RtiChanged(s: Machine, eff: Effective)
    ensures SameWidths(WidthChange(s.r, RTI, ForcedBits(s, RTI, eff)), Execute(s, RTI, eff).r)
  {
    hide Execute, ExecuteFlow, WidthChange, ForcedBits, SameWidths;
    DispatchFlow(s, RTI, eff);
    RtiWidths(s, eff);
  }

  lemma RegisterChanged(s: Machine, mne: Mnemonic, eff: Effective)
    requires mne == REP || mne == SEP || mne == XCE
    ensures SameWidths(WidthChange(s.r, mne, ForcedBits(s, mne, eff)), Execute(s, mne, eff).r)
  {
    assert GroupOf(mne) == RegisterGroup;
    hide Execute, RegisterOp, WidthChange, ForcedBits, SameWidths, GroupOf;
    DispatchRegister(s, mne, eff);
    RegisterWidths(s, mne, eff);
  }

  lemma ChangedWidths(s: Machine, mne: Mnemonic, eff: Effective)
    requires ChangesWidths(mne)
    ensures SameWidths(WidthChange(s.r, mne, ForcedBits(s, mne, eff)), Execute(s, mne, eff).r)
  {
    hide Execute, WidthChange, ForcedBits, SameWidths;
    if mne == PLP {
      PlpChanged(s, eff);
    } else if mne == RTI {
      RtiChanged(s, eff);
    } else {
      RegisterChanged(s, mne, eff);
    }
  }

  /** XCE exchanges the carry and the emulation bit; a change of mode leaves everything 8 bits long. */
  lemma XceExchanges(r: Regs)
    ensures var t := Xce(r);
            && t.emulation == r.p.c && t.p.c == r.emulation
            && (t.emulation != r.emulation ==> t.acc.len == Eight && t.x.len == Eight && t.y.len == Eight)
            && (t.emulation && !r.emulation ==> t.sp.High() == 0x01 && t.sp.Low() == r.sp.Low())
            && (!t.emulation && r.emulation ==> t.p.m && t.p.x && t.sp == r.sp)
  {
    WordParts(r.sp.Low(), 0x01);
  }

  /** The widths after each of the register operations involved. */
  lemma ViewAfterReset(r: Regs, f: Flags)
    ensures ViewOf(r.ResetFlags(f)) ==
            View(r.p.m && !f.m, r.p.x && !f.x, r.emulation, if f.m then Sixteen else r.acc.len,
              if f.x then Sixteen else r.x.len, if f.x then Sixteen else r.y.len, r.sp.len)
  {
  }

  lemma ViewAfterSet(r: Regs, f: Flags)
    ensures ViewOf(r.SetFlags(f)) == View(r.p.m || f.m, r.p.x || f.x, r.emulation, if f.m then Eight else r.acc.len,
              if f.x then Eight else r.x.len, if f.x then Eight else r.y.len, r.sp.len)
  {
  }

  lemma ViewAfterForce(r: Regs, f: Flags)
    ensures ViewOf(r.ForceFlags(f)) == View(f.m, f.x, r.emulation, if f.m then Eight else r.acc.len,
              if f.x then Eight else r.x.len, if f.x then Eight else r.y.len, r.sp.len)
  {
  }

  lemma ViewAfterXce(r: Regs)
    ensures ViewOf(Xce(r)) == if r.p.c == r.emulation then ViewOf(r)
                              else if r.p.c then View(r.p.m, r.p.x, true, Eight, Eight, Eight, r.sp.len)
                              else View(true, true, false, Eight, Eight, Eight, r.sp.len)
  {
  }

  lemma ViewAfterChange(r: Regs, mne: Mnemonic, f: Flags)
    requires ChangesWidths(mne)
    ensures ViewOf(WidthChange(r, mne, f)) ==
            if mne == REP then ViewOf(r.ResetFlags(f))
            else if mne == SEP then ViewOf(r.SetFlags(f))
            else if mne == XCE then ViewOf(Xce(r))
            else ViewOf(r.ForceFlags(f))
  {
    hide Regs.ResetFlags, Regs.SetFlags, Regs.ForceFlags, Xce, ViewOf;
  }

  lemma ConsistentChange(r: Regs, mne: Mnemonic, f: Flags)
    requires ChangesWidths(mne) && Consistent(r)
    ensures Consistent(WidthChange(r, mne, f))
  {
    hide Regs.ResetFlags, Regs.SetFlags, Regs.ForceFlags, Xce, WidthChange;
    ViewAfterChange(r, mne, f);
    ViewAfterReset(r, f);
    ViewAfterSet(r, f);
    ViewAfterForce(r, f);
    ViewAfterXce(r);
  }

  lemma ConsistentTransfers(r: Regs, r': Regs)
    requires SameWidths(r, r')
    ensures Consistent(r) ==> Consistent(r')
    ensures NativeExact(r) ==> NativeExact(r')
    ensures Synced(r) ==> Synced(r')
  {
  }

  /** Every instruction, PLP and RTI included, keeps the widths consistent. */
  lemma KeepsConsistent(s: Machine, mne: Mnemonic, eff: Effective)
    requires Consistent(s.r)
    ensures Consistent(Execute(s, mne, eff).r)
  {
    hide Execute, ForcedBits, WidthChange, Consistent, SameWidths;
    var r := Execute(s, mne, eff).r;
    if ChangesWidths(mne) {
      var f := ForcedBits(s, mne, eff);
      ChangedWidths(s, mne, eff);
      ConsistentChange(s.r, mne, f);
      ConsistentTransfers(WidthChange(s.r, mne, f), r);
    } else {
      KeepsWidths(s, mne, eff);
      ConsistentTransfers(s.r, r);
    }
  }

  /** What PLP or RTI may pull without a bit being cleared whose register is short, in native mode. */
  predicate ClearsNoShort(r: Regs, f: Flags) {
    r.emulation || ((f.m || r.acc.len == Sixteen) && (f.x || r.x.len == Sixteen))
  }

  /** The two degrees of agreement: in native mode, and everywhere. */
  predicate Agree(everywhere: bool, r: Regs) { if everywhere then Synced(r) else NativeExact(r) }

  /** What ends the agreement: such a PLP or RTI, and, as to emulation mode, a REP that widens there. */
  predicate Breaks(everywhere: bool, r: Regs, mne: Mnemonic, f: Flags) {
    || ((mne == PLP || mne == RTI) && !ClearsNoShort(r, f))
    || (everywhere && mne == REP && r.emulation && (f.m || f.x))
  }

  /** PLP and RTI keep the widths exact unless they clear a bit whose register is short. */
  lemma ForceKeepsExactIff(r: Regs, f: Flags)
    ensures NativeExact(r) ==> (NativeExact(r.ForceFlags(f)) <==> ClearsNoShort(r, f))
    ensures Synced(r) ==> (Synced(r.ForceFlags(f)) <==> ClearsNoShort(r, f))
  {
    ViewAfterForce(r, f);
    hide Regs.ForceFlags;
  }

  lemma ForceAgreesIff(everywhere: bool, r: Regs, f: Flags)
    requires Agree(everywhere, r)
    ensures Agree(everywhere, r.ForceFlags(f)) <==> ClearsNoShort(r, f)
  {
    ForceKeepsExactIff(r, f);
    hide Regs.ForceFlags, NativeExact, Synced, ClearsNoShort;
  }

  lemma RepAgreesIff(everywhere: bool, r: Regs, f: Flags)
    requires Agree(everywhere, r)
    ensures Agree(everywhere, r.ResetFlags(f)) <==> !(everywhere && r.emulation && (f.m || f.x))
  {
    ViewAfterReset(r, f);
    hide Regs.ResetFlags;
  }

  lemma SepAgrees(everywhere: bool, r: Regs, f: Flags)
    requires Agree(everywhere, r)
    ensures Agree(everywhere, r.SetFlags(f))
  {
    ViewAfterSet(r, f);
    hide Regs.SetFlags;
  }

  lemma XceAgrees(everywhere: bool, r: Regs)
    requires Agree(everywhere, r)
    ensures Agree(everywhere, Xce(r))
  {
    ViewAfterXce(r);
    hide Xce;
  }

  lemma ChangeAgreesIff(everywhere: bool, r: Regs, mne: Mnemonic, f: Flags)
    requires ChangesWidths(mne) && Agree(everywhere, r)
    ensures Agree(everywhere, WidthChange(r, mne, f)) <==> !Breaks(everywhere, r, mne, f)
  {
    hide Regs.ResetFlags, Regs.SetFlags, Regs.ForceFlags, Xce, Agree, ClearsNoShort;
    if mne == REP {
      RepAgreesIff(everywhere, r, f);
    } else if mne == SEP {
      SepAgrees(everywhere, r, f);
    } else if mne == XCE {
      XceAgrees(everywhere, r);
    } else {
      ForceAgreesIff(everywhere, r, f);
    }
  }

  /** An instruction ends the agreement exactly if it is one of those. */
  lemma StepAgreesIff(everywhere: bool, s: Machine, mne: Mnemonic, eff: Effective)
    requires Agree(everywhere, s.r)
    ensures Agree(everywhere, Execute(s, mne, eff).r) <==> !Breaks(everywhere, s.r, mne, ForcedBits(s, mne, eff))
  {
    hide Execute, ForcedBits, WidthChange, NativeExact, Synced, SameWidths;
    var r := Execute(s, mne, eff).r;
    if ChangesWidths(mne) {
      var f := ForcedBits(s, mne, eff);
      ChangedWidths(s, mne, eff);
      ChangeAgreesIff(everywhere, s.r, mne, f);
      ConsistentTransfers(WidthChange(s.r, mne, f), r);
      SameSymmetric(WidthChange(s.r, mne, f), r);
      ConsistentTransfers(r, WidthChange(s.r, mne, f));
    } else {
      KeepsWidths(s, mne, eff);
      ConsistentTransfers(s.r, r);
    }
  }

  lemma SameSymmetric(r: Regs, r': Regs)
    requires SameWidths(r, r')
    ensures SameWidths(r', r)
  {
  }

  /** A REP keeps the two records in step unless it clears M or X in emulation mode. */
  lemma ResetKeepsSyncedIff(r: Regs, f: Flags)
    requires Synced(r)
    ensures Synced(r.ResetFlags(f)) <==> !r.emulation || (!f.m && !f.x)
  {
    ViewAfterReset(r, f);
    hide Regs.ResetFlags;
  }

  /** A status pulled in native mode with M clear while A is short: operands of two bytes, A of one. */
  lemma PlpBreaksImmediates()
    ensures var r := INITIAL.EmulationReset(); var t := r.ForceFlags(NONE);
            && Synced(r) && !NativeExact(t) && ImmediateSize(t, LDA) == 2 && SizeOf(t.acc.len) == 1
  {
  }

  // ---- runs

  /** The status bits the current instruction works with. */
  function StatusOperand(c: Cpu, junk: u32): Flags {
    var op := c.cur.opcode;
    ForcedBits(c.s, op.mne, Resolve(c.s, op.mne, op.mode, c.cur.operand, junk))
  }

  predicate StepBreaks(everywhere: bool, c: Cpu, junk: u32) {
    Breaks(everywhere, c.s.r, c.cur.opcode.mne, StatusOperand(c, junk))
  }

  lemma InitialSynced()
    ensures Synced(INITIAL)
  {
  }

  /** In every reachable state M implies 8-bit A, X implies 8-bit X and Y, X and Y agree, and SP is 16 bits. */
  lemma {:induction false} ReachableConsistent(m: Memory, reset: u16, junks: seq<u32>)
    ensures Consistent(Run(PowerUp(m, reset), junks).s.r)
  {
    InitialSynced();
    PrefetchKeepsRegisters(Machine(INITIAL.(pc := reset), m));
    ConsistentFrom(PowerUp(m, reset), junks);
  }

  lemma {:induction false} ConsistentFrom(c: Cpu, junks: seq<u32>)
    requires Consistent(c.s.r)
    ensures Consistent(Run(c, junks).s.r)
    decreases |junks|
  {
    hide Execute, Prefetch, Resolve;
    if junks != [] {
      var op := c.cur.opcode;
      KeepsConsistent(c.s, op.mne, Resolve(c.s, op.mne, op.mode, c.cur.operand, junks[0]));
      PrefetchKeepsRegisters(Executed(c, junks[0]));
      ConsistentFrom(Step(c, junks[0]), junks[1..]);
    }
  }

  /** No instruction executed from `c` on ends the agreement. */
  predicate NeverBreaks(everywhere: bool, c: Cpu, junks: seq<u32>)
    decreases |junks|
  {
    junks != [] ==> !StepBreaks(everywhere, c, junks[0]) && NeverBreaks(everywhere, Step(c, junks[0]), junks[1..])
  }

  predicate AgreeAfter(everywhere: bool, c: Cpu, junks: seq<u32>, k: nat)
    requires k <= |junks|
  {
    Agree(everywhere, Run(c, junks[..k]).s.r)
  }

  lemma StepAgrees(everywhere: bool, c: Cpu, junk: u32)
    requires Agree(everywhere, c.s.r)
    ensures Agree(everywhere, Step(c, junk).s.r) <==> !StepBreaks(everywhere, c, junk)
  {
    hide Execute, Prefetch, Resolve, Breaks, ForcedBits;
    var op := c.cur.opcode;
    StepAgreesIff(everywhere, c.s, op.mne, Resolve(c.s, op.mne, op.mode, c.cur.operand, junk));
    PrefetchKeepsRegisters(Executed(c, junk));
    PcIsNoWidth(Executed(c, junk).r, Step(c, junk).s.r.pc);
    hide Agree;
  }

  lemma PcIsNoWidth(r: Regs, pc: u16)
    ensures NativeExact(r.(pc := pc)) == NativeExact(r) && Synced(r.(pc := pc)) == Synced(r)
  {
  }

  lemma AfterFirst(everywhere: bool, c: Cpu, junks: seq<u32>, k: nat)
    requires 0 < k <= |junks|
    ensures AgreeAfter(everywhere, c, junks, k) == AgreeAfter(everywhere, Step(c, junks[0]), junks[1..], k - 1)
  {
    hide Step, Agree;
    assert junks[..k][1..] == junks[1..][..k - 1];
  }

  lemma {:induction false} AgreeFromIff(everywhere: bool, c: Cpu, junks: seq<u32>)
    requires Agree(everywhere, c.s.r)
    ensures (forall k :: 0 <= k <= |junks| ==> AgreeAfter(everywhere, c, junks, k)) <==>
            NeverBreaks(everywhere, c, junks)
    decreases |junks|
  {
    hide Step, StepBreaks, Agree;
    if junks == [] {
      assert AgreeAfter(everywhere, c, junks, 0);
    } else {
      var next, rest := Step(c, junks[0]), junks[1..];
      StepAgrees(everywhere, c, junks[0]);
      assert AgreeAfter(everywhere, c, junks, 0);
      forall k | 0 < k <= |junks|
        ensures AgreeAfter(everywhere, c, junks, k) == AgreeAfter(everywhere, next, rest, k - 1)
      {
        AfterFirst(everywhere, c, junks, k);
      }
      assert AgreeAfter(everywhere, next, rest, 0) == Agree(everywhere, next.s.r);
      if Agree(everywhere, next.s.r) {
        AgreeFromIff(everywhere, next, rest);
        assert forall k :: 0 <= k <= |rest| ==>
                 AgreeAfter(everywhere, c, junks, k + 1) == AgreeAfter(everywhere, next, rest, k);
      } else {
        assert !AgreeAfter(everywhere, c, junks, 1);
      }
    }
  }

  /**
   In native mode the bits and lengths are equivalent in every state of a run from power-up if and
   only if no PLP or RTI of the run clears, in native mode, a bit whose register is short. They agree
   in emulation mode too if and only if, besides, no REP clears M or X there.
   */
  lemma ReachableAgreeIff(everywhere: bool, m: Memory, reset: u16, junks: seq<u32>)
    ensures var c := PowerUp(m, reset);
            (forall k :: 0 <= k <= |junks| ==> AgreeAfter(everywhere, c, junks, k)) <==>
            NeverBreaks(everywhere, c, junks)
  {
    hide NeverBreaks, AgreeAfter, Prefetch;
    PowerUpAgrees(everywhere, m, reset);
    AgreeFromIff(everywhere, PowerUp(m, reset), junks);
  }

  lemma PowerUpAgrees(everywhere: bool, m: Memory, reset: u16)
    ensures Agree(everywhere, PowerUp(m, reset).s.r)
    ensures var c := PowerUp(m, reset); c.cur.operandSize == OperandSize(c.s.r, c.cur.opcode)
  {
    hide Prefetch, OperandSize;
    InitialSynced();
    PrefetchKeepsRegisters(Machine(INITIAL.(pc := reset), m));
  }

  /** The length an instruction with a width-dependent immediate executes with. */
  function ExecutedWidth(r: Regs, mne: Mnemonic): Width {
    if mne == LDX || mne == CPX then r.x.len else if mne == LDY || mne == CPY then r.y.len else r.acc.len
  }

  /** The bytes consumed for the operand are those of the width the instruction will use. */
  predicate ImmediateAgrees(c: Cpu) {
    c.cur.opcode.mode == Immediate && (IsMSensitive(c.cur.opcode.mne) || IsXSensitive(c.cur.opcode.mne)) ==>
      c.cur.operandSize == SizeOf(ExecutedWidth(c.s.r, c.cur.opcode.mne))
  }

  /** Where the records agree the operand has the width it is executed with. */
  lemma AgreedImmediate(c: Cpu)
    requires Synced(c.s.r) && c.cur.operandSize == OperandSize(c.s.r, c.cur.opcode)
    ensures ImmediateAgrees(c)
  {
  }

  /**
   So on every run without such instructions fetch and execution agree on the width of every
   immediate, although the one reads status bits and the other register lengths.
   */
  lemma ReachableImmediatesAgree(m: Memory, reset: u16, junks: seq<u32>)
    requires NeverBreaks(true, PowerUp(m, reset), junks)
    ensures var c := Run(PowerUp(m, reset), junks); Synced(c.s.r) && ImmediateAgrees(c)
  {
    hide NeverBreaks, Run, Prefetch, OperandSize, Synced, ImmediateAgrees;
    PowerUpAgrees(true, m, reset);
    ImmediatesAgreeFrom(PowerUp(m, reset), junks);
  }

  lemma {:induction false} ImmediatesAgreeFrom(c: Cpu, junks: seq<u32>)
    requires Synced(c.s.r) && NeverBreaks(true, c, junks)
    requires c.cur.operandSize == OperandSize(c.s.r, c.cur.opcode)
    ensures Synced(Run(c, junks).s.r) && ImmediateAgrees(Run(c, junks))
    decreases |junks|
  {
    hide Executed, Prefetch, StepBreaks, Synced, ImmediateAgrees, OperandSize;
    if junks == [] {
      AgreedImmediate(c);
    } else {
      StepAgrees(true, c, junks[0]);
      PrefetchKeepsRegisters(Executed(c, junks[0]));
      ImmediatesAgreeFrom(Step(c, junks[0]), junks[1..]);
    }
  }

  // ---- a run on which fetch and execution disagree

  const WIDENING: seq<u8> := [0xC2, 0x30, 0xA9]

  lemma WideningBytes()
    ensures Ops(0xC2) == Opcode(REP, Immediate) && Ops(0xA9) == Opcode(LDA, Immediate)
    ensures LittleEndian(0x30, 1) == [0x30] && Power256(1) == 0x100 && WIDENING[0..2] == [0xC2] + LittleEndian(0x30, 1)
  {
    SmallOperands(0, 0x30);
    assert WIDENING[0..2] == [0xC2, 0x30];
  }

  predicate AboutToWiden(s: Machine) {
    s.r.emulation && s.r.pbr == 0 && Holds(s.m, s.r.pc, WIDENING)
  }

  lemma WideningFetched(s: Machine)
    requires AboutToWiden(s)
    ensures var c := Prefetch(s);
            && c.cur == Instruction(0xC2, Opcode(REP, Immediate), 1, 0x30)
            && c.s == s.WithRegs(s.r.(pc := Trunc16(s.r.pc + 2)))
  {
    WideningBytes();
    hide BusMemory.Read, Holds, Ops, OperandAt, Prefetch, LittleEndian, Power256;
    FetchWithin(s, s.r.pc, WIDENING, 0, 0xC2, 0x30);
  }

  lemma ResettingBits()
    ensures FromByte(Trunc8(0x30)) == NONE.(m := true, x := true)
  {
  }

  lemma WideningExecuted(c: Cpu, junk: u32)
    requires c.cur == Instruction(0xC2, Opcode(REP, Immediate), 1, 0x30)
    ensures Executed(c, junk) == c.s.WithRegs(c.s.r.ResetFlags(NONE.(m := true, x := true)))
  {
    hide Execute, Resolve, Regs.ResetFlags, FromByte;
    ImmediateResolves(c.s, REP, 0x30, junk);
    ResettingBits();
    ExecuteRep(c.s, Effective(ImmediateData, 0x30));
  }

  lemma WideningStatus(c: Cpu, junk: u32)
    requires c.cur == Instruction(0xC2, Opcode(REP, Immediate), 1, 0x30)
    ensures StatusOperand(c, junk) == NONE.(m := true, x := true)
  {
    hide Resolve, FromByte, Machine.Pull, Machine.PullWord;
    ImmediateResolves(c.s, REP, 0x30, junk);
    ResettingBits();
  }

  lemma OpcodeRead(s: Machine)
    ensures Prefetch(s).cur.opcode == Ops(Read(s.m, s.r.pc + s.r.ProgramBank()))
  {
    hide Ops, OperandSize, OperandAt, BusMemory.Read;
  }

  lemma WidenedLoad(s: Machine)
    requires s.r.pbr == 0 && s.r.emulation && Read(s.m, s.r.pc) == 0xA9
    ensures var c := Prefetch(s);
            c.cur.opcode == Opcode(LDA, Immediate) && c.cur.operandSize == 1 && c.s.r.acc == s.r.acc
  {
    WideningBytes();
    hide Ops, OperandAt, BusMemory.Read, Prefetch;
    OpcodeRead(s);
    PrefetchKeepsRegisters(s);
  }

  lemma WideningSteps(s: Machine, junk: u32)
    requires AboutToWiden(s)
    ensures var c := Prefetch(s); var d := Step(c, junk);
            && StepBreaks(true, c, junk)
            && d.cur.opcode == Opcode(LDA, Immediate) && d.cur.operandSize == 1 && d.s.r.acc.len == Sixteen
  {
    hide BusMemory.Read, Ops, Executed, Prefetch, StatusOperand;
    WideningFetched(s);
    var c := Prefetch(s);
    WideningExecuted(c, junk);
    WideningStatus(c, junk);
    assert Read(s.m, Trunc16(s.r.pc + 2)) == WIDENING[2];
    WidenedLoad(Executed(c, junk));
  }

  /** C2 30 A9 at the reset vector: after the REP the LDA has one operand byte for a 16-bit A. */
  lemma WideningRepBreaksImmediates(m: Memory, reset: u16, junk: u32)
    requires Holds(m, reset, WIDENING)
    ensures var c := PowerUp(m, reset); var d := Step(c, junk);
            && StepBreaks(true, c, junk)
            && d.cur.opcode == Opcode(LDA, Immediate) && d.cur.operandSize == 1 && d.s.r.acc.len == Sixteen
            && !ImmediateAgrees(d)
  {
    hide Holds, Executed, Prefetch, StatusOperand, OperandSize;
    WideningSteps(Machine(INITIAL.(pc := reset), m), junk);
  }
}
