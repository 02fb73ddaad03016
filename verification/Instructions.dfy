/**
 What each mnemonic does to the machine. A failed assertion or `abort` in the C ends the process;
 here such a case leaves the machine as it is, and so does a stub.
 */
module Instructions {
  import opened BitStrings
  import opened Bytes
  import opened BusMemory
  import opened CpuRegisters
  import opened CpuMachine
  import opened Opcodes
  import opened AddressingModes

  /** The width of an operand in bytes. */
  function SizeOf(len: Width): nat { if len == Eight then 1 else 2 }

  function Fetch(s: Machine, eff: Effective, size: nat): u16 {
    match eff.kind
    case ImmediateData => Trunc16(eff.address)
    case AccumulatorOperand => s.r.acc.Visible()
    case _ => if size == 2 then ReadWord(s.m, eff.address) else s.Load(eff.address)
  }

  function StoreData(s: Machine, eff: Effective, data: u16, size: nat): Machine {
    if eff.kind.AccumulatorOperand? then s.WithRegs(s.r.SetAcc(data)) else
    var s := s.Store(eff.address, Low(data));
    var s := s.WithRegs(s.r.Update8(Low(data)));
    if size != 2 then s else
    var s := s.Store(Trunc32(eff.address + 1), High(data));
    s.WithRegs(s.r.Update16(data))
  }

  /** The top bit of a value of the given width. */
  function Top(len: Width, v: u16): bool { if len == Eight then Low(v) >= 0x80 else v >= 0x8000 }

  /** The overflow and carry rules of the addition. */
  function AddOverflow(len: Width, a: u16, b: u16, result: u16): bool {
    (Top(len, a) && Top(len, b) && !Top(len, result)) || (!Top(len, a) && !Top(len, b) && Top(len, result))
  }

  function AddCarry(len: Width, a: u16, b: u16, result: u16): bool {
    (Top(len, a) || Top(len, b)) && !Top(len, result)
  }

  function CarryIn(r: Regs): nat { if r.p.c then 1 else 0 }

  function Adc(s: Machine, eff: Effective): Machine {
    if s.r.p.d then s else
    var r := s.r;
    var len := r.acc.len;
    var value := Fetch(s, eff, SizeOf(len));
    var a, b := r.acc.Visible(), if len == Eight then Low(value) else value;
    var sum := a + b + CarryIn(r);
    var result: u16 := if len == Eight then Trunc8(sum) else Trunc16(sum);
    s.WithRegs(r.PutC(AddCarry(len, a, b, result)).PutV(AddOverflow(len, a, b, result))
                .SetAcc(result))
  }

  function Sbc(s: Machine, eff: Effective): Machine {
    var r := s.r;
    var len := r.acc.len;
    var data := Fetch(s, eff, SizeOf(len));
    if len == Sixteen then
      var result := r.acc.value - data + CarryIn(r) - 1;
      var low := Trunc16(result);
      var overflow := Top(len, r.acc.value) != Top(len, data) && Top(len, r.acc.value) != Top(len, low);
      s.WithRegs(r.SetAcc(low).PutC(result >= 0).PutV(overflow))
    else
      var result := Trunc16(r.acc.Low() - Signed16(data) + CarryIn(r) - 1);
      s.WithRegs(r.PutC(Signed16(result) >= 0).PutV(data >= 0x8000 && result >= 0x8000))
  }

  function Cmp(s: Machine, eff: Effective): Machine {
    var r := s.r;
    var data := Fetch(s, eff, SizeOf(r.acc.len));
    if r.acc.len == Sixteen then
      var result := r.acc.value - data;
      s.WithRegs(r.Update16(Trunc16(result)).PutC(result >= 0))
    else
      var result := r.acc.Low() - Low(data);
      s.WithRegs(r.Update8(Trunc8(result)).PutC(result >= 0))
  }

  /** CPX and CPY: at 8 bits N and Z come from the operand. */
  function CompareIndex(s: Machine, reg: Reg, eff: Effective): Machine {
    var data := Fetch(s, eff, SizeOf(reg.len));
    if reg.len == Sixteen then
      var result := reg.value - data;
      s.WithRegs(s.r.Update16(Trunc16(result)).PutC(result >= 0))
    else
      s.WithRegs(s.r.Update8(Low(data)).PutC(reg.Low() - Low(data) >= 0))
  }

  /** AND, ORA and EOR. */
  function Logic(s: Machine, op: BitOp, eff: Effective): Machine {
    s.WithRegs(s.r.SetAcc(Combined(op, s.r.acc.value, Fetch(s, eff, SizeOf(s.r.acc.len)))))
  }

  /** BIT as written: Z is set when the conjunction is not zero. */
  function BitTest(s: Machine, eff: Effective): Machine {
    var r := s.r;
    var value := Fetch(s, eff, SizeOf(r.acc.len));
    var r' := if r.acc.len == Sixteen then r.Update16(value) else r.Update8(Low(value));
    s.WithRegs(r'.PutZ(BitAnd(r.acc.Visible(), value) != 0))
  }

  function TestBits(s: Machine, eff: Effective, on: bool): Machine {
    var size := SizeOf(s.r.acc.len);
    var value := if size == 2 then ReadWord(s.m, eff.address) else s.Load(eff.address);
    var acc := s.r.acc;
    var result := if on then BitOr(value, acc.value) else BitAnd(value, 0xFFFF - acc.value);
    var s := s.Store(eff.address, Low(result));
    var s := if size == 2 then s.Store(Trunc32(eff.address + 1), High(result)) else s;
    s.WithRegs(s.r.PutZ(BitAnd(value, acc.Visible()) == 0))
  }

  /** ASL takes the carry from the low bit. */
  function Asl(s: Machine, eff: Effective): Machine {
    var size := SizeOf(s.r.acc.len);
    var value := Fetch(s, eff, size);
    var s := StoreData(s, eff, Trunc16(2 * value), size);
    s.WithRegs(s.r.PutC(value % 2 == 1))
  }

  function Lsr(s: Machine, eff: Effective): Machine {
    var size := SizeOf(s.r.acc.len);
    var value := Fetch(s, eff, size);
    var s := StoreData(s, eff, value / 2, size);
    s.WithRegs(s.r.PutC(value % 2 == 1))
  }

  /** ROL and ROR leave their result in the accumulator, whatever the operand was. */
  function Rol(s: Machine, eff: Effective): Machine {
    var r := s.r;
    var len := r.acc.len;
    var value := Fetch(s, eff, SizeOf(len));
    var result: u16 := if len == Eight then Trunc8(2 * Low(value) + CarryIn(r)) else Trunc16(2 * value + CarryIn(r));
    s.WithRegs(r.PutC(Top(len, value)).SetAcc(result))
  }

  /** ROR takes the carry from the top bit. */
  function Ror(s: Machine, eff: Effective): Machine {
    var r := s.r;
    var len := r.acc.len;
    var value := Fetch(s, eff, SizeOf(len));
    var result: u16 := if len == Eight then Low(value) / 2 + 0x80 * CarryIn(r) else value / 2 + 0x8000 * CarryIn(r);
    s.WithRegs(r.PutC(Top(len, value)).SetAcc(result))
  }

  function IncDec(s: Machine, eff: Effective, delta: int): Machine {
    var size := SizeOf(s.r.acc.len);
    StoreData(s, eff, Trunc16(Fetch(s, eff, size) + delta), size)
  }

  /** STA, STX and STY. */
  function StoreReg(s: Machine, reg: Reg, eff: Effective): Machine {
    var s := s.Store(eff.address, reg.Low());
    if reg.len == Sixteen then s.Store(Trunc32(eff.address + 1), reg.High()) else s
  }

  function Stz(s: Machine, eff: Effective): Machine {
    var s := s.Store(eff.address, 0);
    if !s.r.emulation && !s.r.p.m then s.Store(Trunc32(eff.address + 1), 0) else s
  }

  function Branch(s: Machine, taken: bool, eff: Effective): Machine {
    if taken then s.WithRegs(s.r.(pc := Trunc16(eff.address))) else s
  }

  /** JMP changes the program bank only when the target's bank is not 0. */
  function Jmp(s: Machine, eff: Effective): Machine {
    var r := s.r.(pc := Trunc16(eff.address));
    s.WithRegs(if eff.address / 0x1_0000 != 0 then r.(pbr := Trunc8(eff.address / 0x1_0000)) else r)
  }

  function Jsr(s: Machine, eff: Effective): Machine {
    var s := s.PushWord(Trunc16(s.r.pc - 1));
    s.WithRegs(s.r.(pc := Trunc16(eff.address)))
  }

  function Rts(s: Machine): Machine {
    var (s, pc) := s.PullWord();
    s.WithRegs(s.r.(pc := Trunc16(pc + 1)))
  }

  function Rtl(s: Machine): Machine {
    var (s, pc) := s.PullWord();
    var (s, pbr) := s.Pull();
    s.WithRegs(s.r.(pc := Trunc16(pc + 1), pbr := pbr))
  }

  function Rti(s: Machine): Machine {
    var (s, pc) := s.PullWord();
    var (s, pbr) := s.Pull();
    var (s, p) := s.Pull();
    s.WithRegs(s.r.(pc := pc, pbr := pbr).ForceFlags(FromByte(p)))
  }

  function PushReg(s: Machine, reg: Reg): Machine {
    if reg.len == Sixteen then s.PushWord(reg.value) else s.Push(reg.Low())
  }

  /** Pull a value of the length of the register it is for. */
  function PullFor(s: Machine, reg: Reg): (Machine, u16) {
    if reg.len == Sixteen then s.PullWord() else s.Pull()
  }

  function Pla(s: Machine): Machine { var (s', v) := PullFor(s, s.r.acc); s'.WithRegs(s'.r.SetAcc(v)) }

  function Plx(s: Machine): Machine { var (s', v) := PullFor(s, s.r.x); s'.WithRegs(s'.r.SetX(v)) }

  function Ply(s: Machine): Machine { var (s', v) := PullFor(s, s.r.y); s'.WithRegs(s'.r.SetY(v)) }

  function Plb(s: Machine): Machine { var (s, v) := s.Pull(); s.WithRegs(s.r.SetDbr(v)) }

  function Pld(s: Machine): Machine { var (s, v) := s.PullWord(); s.WithRegs(s.r.SetDp(v)) }

  function Plp(s: Machine): Machine { var (s, v) := s.Pull(); s.WithRegs(s.r.ForceFlags(FromByte(v))) }

  function Xba(r: Regs): Regs {
    r.SetAcc16(Word(r.acc.High(), r.acc.Low())).Update8(r.acc.High())
  }

  function Xce(r: Regs): Regs {
    if r.p.c == r.emulation then r else if r.p.c then r.EmulationSet() else r.EmulationReset()
  }

  /** The instructions that only move registers or set flags. */
  function RegisterOp(r: Regs, mne: Mnemonic, eff: Effective): Regs {
    match mne
    case CLC => r.ResetFlags(FLAG_C)
    case CLD => r.ResetFlags(FLAG_D)
    case CLI => r.ResetFlags(FLAG_I)
    case CLV => r.ResetFlags(FLAG_V)
    case SEC => r.SetFlags(FLAG_C)
    case SED => r.SetFlags(FLAG_D)
    case SEI => r.SetFlags(FLAG_I)
    case REP => r.ResetFlags(FromByte(Trunc8(eff.address)))
    case SEP => r.SetFlags(FromByte(Trunc8(eff.address)))
    case DEX => r.SetX(Trunc16(r.x.value - 1))
    case DEY => r.SetY(Trunc16(r.y.value - 1))
    case INX => r.SetX(Trunc16(r.x.value + 1))
    case INY => r.SetY(Trunc16(r.y.value + 1))
    case TAX => r.SetX(if r.x.len == Sixteen then r.acc.value else r.acc.Low())
    case TAY => r.SetY(if r.y.len == Sixteen then r.acc.value else r.acc.Low())
    case TCD => r.SetDp(r.acc.value)
    case TCS => r.SetSp(r.acc.value)
    case TDC => r.SetAcc16(r.dp)
    case TSC => r.SetAcc16(r.sp.value)
    case TSX => r.SetX(r.sp.value)
    case TXA => r.SetAcc(r.x.value)
    case TXS => r.SetSp(r.x.value)
    case TXY => r.SetY(r.x.value)
    case TYA => r.SetAcc(r.y.value)
    case TYX => r.SetX(r.y.value)
    case XBA => Xba(r)
    case XCE => Xce(r)
    case _ => r
  }

  /** The mnemonics by what they touch; the rest only moves registers or sets flags. */
  datatype Group = ComputeGroup | ModifyGroup | LoadStoreGroup | FlowGroup | PushGroup | PullGroup | RegisterGroup

  function GroupOf(mne: Mnemonic): Group {
    match mne
    case ADC | SBC | CMP | CPX | CPY | AND | ORA | EOR | BIT => ComputeGroup
    case TRB | TSB | ASL | LSR | ROL | ROR | INC | DEC => ModifyGroup
    case LDA | LDX | LDY | STA | STX | STY | STZ | STP => LoadStoreGroup
    case BCC | BCS | BEQ | BNE | BMI | BLP | BVC | BVS | BRA | BRL | JMP | JSR | RTS | RTL | RTI => FlowGroup
    case PEA | PEI | PER | PHA | PHX | PHY | PHB | PHK | PHD | PHP => PushGroup
    case PLA | PLX | PLY | PLB | PLD | PLP => PullGroup
    case _ => RegisterGroup
  }

  predicate IsBranch(mne: Mnemonic) {
    match mne
    case BCC | BCS | BEQ | BNE | BMI | BLP | BVC | BVS | BRA | BRL => true
    case _ => false
  }

  function ExecuteCompute(s: Machine, mne: Mnemonic, eff: Effective): Machine {
    var r := s.r;
    match mne
    case ADC => Adc(s, eff)
    case SBC => Sbc(s, eff)
    case CMP => Cmp(s, eff)
    case CPX => CompareIndex(s, r.x, eff)
    case CPY => CompareIndex(s, r.y, eff)
    case AND => Logic(s, AndOp, eff)
    case ORA => Logic(s, OrOp, eff)
    case EOR => Logic(s, XorOp, eff)
    case BIT => BitTest(s, eff)
    case _ => s
  }

  function ExecuteModify(s: Machine, mne: Mnemonic, eff: Effective): Machine {
    var r := s.r;
    match mne
    case TRB => TestBits(s, eff, false)
    case TSB => TestBits(s, eff, true)
    case ASL => Asl(s, eff)
    case LSR => Lsr(s, eff)
    case ROL => Rol(s, eff)
    case ROR => Ror(s, eff)
    case INC => IncDec(s, eff, 1)
    case DEC => IncDec(s, eff, -1)
    case _ => s
  }

  function ExecuteLoadStore(s: Machine, mne: Mnemonic, eff: Effective): Machine {
    var r := s.r;
    match mne
    case LDA => s.WithRegs(r.SetAcc(Fetch(s, eff, SizeOf(r.acc.len))))
    case LDX => s.WithRegs(r.SetX(Fetch(s, eff, SizeOf(r.x.len))))
    case LDY => s.WithRegs(r.SetY(Fetch(s, eff, SizeOf(r.y.len))))
    case STA => StoreReg(s, r.acc, eff)
    case STX => StoreReg(s, r.x, eff)
    case STY => StoreReg(s, r.y, eff)
    case STZ => Stz(s, eff)
    case STP => s.Store(eff.address, r.p.ToByte())
    case _ => s
  }

  function ExecuteFlow(s: Machine, mne: Mnemonic, eff: Effective): Machine {
    var r := s.r;
    match mne
    case BCC => Branch(s, !r.p.c, eff)
    case BCS => Branch(s, r.p.c, eff)
    case BEQ => Branch(s, r.p.z, eff)
    case BNE => Branch(s, !r.p.z, eff)
    case BMI => Branch(s, r.p.n, eff)
    case BLP => Branch(s, !r.p.n, eff)
    case BVC => Branch(s, !r.p.v, eff)
    case BVS => Branch(s, r.p.v, eff)
    case BRA => Branch(s, true, eff)
    case BRL => Branch(s, true, eff)
    case JMP => Jmp(s, eff)
    case JSR => Jsr(s, eff)
    case RTS => Rts(s)
    case RTL => Rtl(s)
    case RTI => Rti(s)
    case _ => s
  }

  function ExecutePush(s: Machine, mne: Mnemonic, eff: Effective): Machine {
    var r := s.r;
    match mne
    case PEA => s.PushWord(Fetch(s, eff, 2))
    case PEI => s.PushWord(Fetch(s, eff, 2))
    case PER => s.PushWord(Fetch(s, eff, 2))
    case PHA => PushReg(s, r.acc)
    case PHX => PushReg(s, r.x)
    case PHY => PushReg(s, r.y)
    case PHB => s.Push(r.dbr)
    case PHK => s.Push(r.pbr)
    case PHD => s.PushWord(r.dp)
    case PHP => s.Push(r.p.ToByte())
    case _ => s
  }

  function ExecutePull(s: Machine, mne: Mnemonic): Machine {
    match mne
    case PLA => Pla(s)
    case PLX => Plx(s)
    case PLY => Ply(s)
    case PLB => Plb(s)
    case PLD => Pld(s)
    case PLP => Plp(s)
    case _ => s
  }

  function Execute(s: Machine, mne: Mnemonic, eff: Effective): Machine {
    match GroupOf(mne)
    case ComputeGroup => ExecuteCompute(s, mne, eff)
    case ModifyGroup => ExecuteModify(s, mne, eff)
    case LoadStoreGroup => ExecuteLoadStore(s, mne, eff)
    case FlowGroup => ExecuteFlow(s, mne, eff)
    case PushGroup => ExecutePush(s, mne, eff)
    case PullGroup => ExecutePull(s, mne)
    case RegisterGroup => s.WithRegs(RegisterOp(s.r, mne, eff))
  }

  // ---- dispatch, one group at a time

  lemma DispatchCompute(s: Machine, mne: Mnemonic, eff: Effective)
    requires GroupOf(mne) == ComputeGroup
    ensures Execute(s, mne, eff) == ExecuteCompute(s, mne, eff)
  {
    hide GroupOf, ExecuteCompute;
  }

  lemma DispatchModify(s: Machine, mne: Mnemonic, eff: Effective)
    requires GroupOf(mne) == ModifyGroup
    ensures Execute(s, mne, eff) == ExecuteModify(s, mne, eff)
  {
    hide GroupOf, ExecuteModify;
  }

  lemma DispatchLoadStore(s: Machine, mne: Mnemonic, eff: Effective)
    requires GroupOf(mne) == LoadStoreGroup
    ensures Execute(s, mne, eff) == ExecuteLoadStore(s, mne, eff)
  {
    hide GroupOf, ExecuteLoadStore;
  }

  lemma DispatchFlow(s: Machine, mne: Mnemonic, eff: Effective)
    requires GroupOf(mne) == FlowGroup
    ensures Execute(s, mne, eff) == ExecuteFlow(s, mne, eff)
  {
    hide GroupOf, ExecuteFlow;
  }

  lemma DispatchPush(s: Machine, mne: Mnemonic, eff: Effective)
    requires GroupOf(mne) == PushGroup
    ensures Execute(s, mne, eff) == ExecutePush(s, mne, eff)
  {
    hide GroupOf, ExecutePush;
  }

  lemma DispatchPull(s: Machine, mne: Mnemonic, eff: Effective)
    requires GroupOf(mne) == PullGroup
    ensures Execute(s, mne, eff) == ExecutePull(s, mne)
  {
    hide GroupOf, ExecutePull;
  }

  lemma DispatchRegister(s: Machine, mne: Mnemonic, eff: Effective)
    requires GroupOf(mne) == RegisterGroup
    ensures Execute(s, mne, eff) == s.WithRegs(RegisterOp(s.r, mne, eff))
  {
    hide GroupOf, RegisterOp;
  }

  // ---- single mnemonics

  lemma ExecuteLda(s: Machine, eff: Effective)
    ensures Execute(s, LDA, eff) == s.WithRegs(s.r.SetAcc(Fetch(s, eff, SizeOf(s.r.acc.len))))
  {
    hide Execute, Fetch, Regs.SetAcc;
    DispatchLoadStore(s, LDA, eff);
  }

  lemma ExecuteLdx(s: Machine, eff: Effective)
    ensures Execute(s, LDX, eff) == s.WithRegs(s.r.SetX(Fetch(s, eff, SizeOf(s.r.x.len))))
  {
    hide Execute, Fetch, Regs.SetX;
    DispatchLoadStore(s, LDX, eff);
  }

  lemma ExecuteLdy(s: Machine, eff: Effective)
    ensures Execute(s, LDY, eff) == s.WithRegs(s.r.SetY(Fetch(s, eff, SizeOf(s.r.y.len))))
  {
    hide Execute, Fetch, Regs.SetY;
    DispatchLoadStore(s, LDY, eff);
  }

  lemma ExecuteSta(s: Machine, eff: Effective)
    ensures Execute(s, STA, eff) == StoreReg(s, s.r.acc, eff)
  {
    hide Execute, StoreReg;
    DispatchLoadStore(s, STA, eff);
  }

  lemma ExecuteStx(s: Machine, eff: Effective)
    ensures Execute(s, STX, eff) == StoreReg(s, s.r.x, eff)
  {
    hide Execute, StoreReg;
    DispatchLoadStore(s, STX, eff);
  }

  lemma ExecuteSty(s: Machine, eff: Effective)
    ensures Execute(s, STY, eff) == StoreReg(s, s.r.y, eff)
  {
    hide Execute, StoreReg;
    DispatchLoadStore(s, STY, eff);
  }

  lemma ExecuteStz(s: Machine, eff: Effective)
    ensures Execute(s, STZ, eff) == Stz(s, eff)
  {
    hide Execute, Stz;
    DispatchLoadStore(s, STZ, eff);
  }

  lemma ExecuteStp(s: Machine, eff: Effective)
    ensures Execute(s, STP, eff) == s.Store(eff.address, s.r.p.ToByte())
  {
    hide Execute, BusMemory.Write, Flags.ToByte;
    DispatchLoadStore(s, STP, eff);
  }

  lemma ExecuteSbc(s: Machine, eff: Effective)
    ensures Execute(s, SBC, eff) == Sbc(s, eff)
  {
    hide Execute, Sbc;
    DispatchCompute(s, SBC, eff);
  }

  lemma ExecuteCmp(s: Machine, eff: Effective)
    ensures Execute(s, CMP, eff) == Cmp(s, eff)
  {
    hide Execute, Cmp;
    DispatchCompute(s, CMP, eff);
  }

  lemma ExecuteCpx(s: Machine, eff: Effective)
    ensures Execute(s, CPX, eff) == CompareIndex(s, s.r.x, eff)
  {
    hide Execute, CompareIndex;
    DispatchCompute(s, CPX, eff);
  }

  lemma ExecuteRol(s: Machine, eff: Effective)
    ensures Execute(s, ROL, eff) == Rol(s, eff)
  {
    hide Execute, Rol;
    DispatchModify(s, ROL, eff);
  }

  lemma ExecuteBne(s: Machine, eff: Effective)
    ensures Execute(s, BNE, eff) == Branch(s, !s.r.p.z, eff)
  {
    hide Execute, Branch;
    DispatchFlow(s, BNE, eff);
  }

  lemma ExecuteBeq(s: Machine, eff: Effective)
    ensures Execute(s, BEQ, eff) == Branch(s, s.r.p.z, eff)
  {
    hide Execute, Branch;
    DispatchFlow(s, BEQ, eff);
  }

  lemma ExecuteBra(s: Machine, eff: Effective)
    ensures Execute(s, BRA, eff) == Branch(s, true, eff)
  {
    hide Execute, Branch;
    DispatchFlow(s, BRA, eff);
  }

  lemma ExecuteJsr(s: Machine, eff: Effective)
    ensures Execute(s, JSR, eff) == Jsr(s, eff)
  {
    hide Execute, Jsr;
    DispatchFlow(s, JSR, eff);
  }

  lemma ExecuteRts(s: Machine, eff: Effective)
    ensures Execute(s, RTS, eff) == Rts(s)
  {
    hide Execute, Rts;
    DispatchFlow(s, RTS, eff);
  }

  lemma ExecutePlp(s: Machine, eff: Effective)
    ensures Execute(s, PLP, eff) == Plp(s)
  {
    hide Execute, Plp;
    DispatchPull(s, PLP, eff);
  }

  lemma ExecuteDex(s: Machine, eff: Effective)
    ensures Execute(s, DEX, eff) == s.WithRegs(s.r.SetX(Trunc16(s.r.x.value - 1)))
  {
    hide Execute, Regs.SetX;
    DispatchRegister(s, DEX, eff);
  }

  lemma ExecuteInx(s: Machine, eff: Effective)
    ensures Execute(s, INX, eff) == s.WithRegs(s.r.SetX(Trunc16(s.r.x.value + 1)))
  {
    hide Execute, Regs.SetX;
    DispatchRegister(s, INX, eff);
  }

  lemma ExecuteRep(s: Machine, eff: Effective)
    ensures Execute(s, REP, eff) == s.WithRegs(s.r.ResetFlags(FromByte(Trunc8(eff.address))))
  {
    hide Execute, Regs.ResetFlags, FromByte;
    DispatchRegister(s, REP, eff);
  }
}
