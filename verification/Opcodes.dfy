/** Mnemonics, addressing modes and the opcode table. */
module Opcodes {
  import opened Bytes

  datatype Mnemonic =
    | ADC | AND | ASL | BCC | BCS | BEQ | BIT | BMI | BNE | BLP | BRA | BRK | BRL | BVC | BVS | CLC | CLD | CLI
    | CLV | CMP | COP | CPX | CPY | DEC | DEX | DEY | EOR | INC | INX | INY | JMP | JSR | LDA | LDX | LDY | LSR
    | MVN | MVP | NOP | ORA | PEA | PEI | PER | PHA | PHB | PHD | PHK | PHP | PHX | PHY | PLA | PLB | PLD | PLP
    | PLX | PLY | REP | ROL | ROR | RTI | RTL | RTS | SBC | SEC | SED | SEI | SEP | STA | STP | STX | STY | STZ
    | TAX | TAY | TCD | TCS | TDC | TRB | TSB | TSC | TSX | TXA | TXS | TXY | TYA | TYX | WAI | WDM | XBA | XCE

  datatype Mode =
    | Absolute | AbsoluteIndexedX | AbsoluteIndexedY | AbsoluteIndexedIndirect | AbsoluteIndirect
    | AbsoluteIndirectLong | AbsoluteLong | AbsoluteLongIndexedX | Accumulator | BlockMove | DirectPage
    | DirectPageIndexedX | DirectPageIndexedY | DirectPageIndexedIndirectX | DirectPageIndirect
    | DirectPageIndirectLong | DirectPageIndirectIndexedY | DirectPageIndirectLongIndexedY | Immediate | Implied
    | ProgramCounterRelative | ProgramCounterRelativeLong | StackAbsolute | StackDirectPageIndirect
    | StackInterrupt | StackProgramCounterRelativeLong | StackPull | StackPush | StackRTI | StackRTL | StackRTS
    | StackRelative | StackRelativeIndirectIndexedY

  datatype Opcode = Opcode(mne: Mnemonic, mode: Mode)

  function Row0(low: nat): Opcode {
    match low
    case 0 => Opcode(BRK, StackInterrupt)
    case 1 => Opcode(ORA, DirectPageIndexedIndirectX)
    case 2 => Opcode(COP, StackInterrupt)
    case 3 => Opcode(ORA, StackRelative)
    case 4 => Opcode(TSB, DirectPage)
    case 5 => Opcode(ORA, DirectPage)
    case 6 => Opcode(ASL, DirectPage)
    case 7 => Opcode(ORA, DirectPageIndirectLong)
    case 8 => Opcode(PHP, StackPush)
    case 9 => Opcode(ORA, Immediate)
    case 10 => Opcode(ASL, Accumulator)
    case 11 => Opcode(PHD, StackPush)
    case 12 => Opcode(TSB, Absolute)
    case 13 => Opcode(ORA, Absolute)
    case 14 => Opcode(ASL, Absolute)
    case _ => Opcode(ORA, AbsoluteLong)
  }

  function Row1(low: nat): Opcode {
    match low
    case 0 => Opcode(BLP, ProgramCounterRelative)
    case 1 => Opcode(ORA, DirectPageIndirectIndexedY)
    case 2 => Opcode(ORA, DirectPageIndirect)
    case 3 => Opcode(ORA, StackRelativeIndirectIndexedY)
    case 4 => Opcode(TRB, DirectPage)
    case 5 => Opcode(ORA, DirectPageIndexedX)
    case 6 => Opcode(ASL, DirectPageIndexedX)
    case 7 => Opcode(ORA, DirectPageIndirectLongIndexedY)
    case 8 => Opcode(CLC, Implied)
    case 9 => Opcode(ORA, AbsoluteIndexedY)
    case 10 => Opcode(INC, Accumulator)
    case 11 => Opcode(TCS, Implied)
    case 12 => Opcode(TRB, Absolute)
    case 13 => Opcode(ORA, AbsoluteIndexedX)
    case 14 => Opcode(ASL, AbsoluteIndexedX)
    case _ => Opcode(ORA, AbsoluteLongIndexedX)
  }

  function Row2(low: nat): Opcode {
    match low
    case 0 => Opcode(JSR, Absolute)
    case 1 => Opcode(AND, DirectPageIndexedIndirectX)
    case 2 => Opcode(JSR, AbsoluteLong)
    case 3 => Opcode(AND, StackRelative)
    case 4 => Opcode(BIT, DirectPage)
    case 5 => Opcode(AND, DirectPage)
    case 6 => Opcode(ROL, DirectPage)
    case 7 => Opcode(AND, DirectPageIndirectLong)
    case 8 => Opcode(PLP, StackPull)
    case 9 => Opcode(AND, Immediate)
    case 10 => Opcode(ROL, Accumulator)
    case 11 => Opcode(PLD, StackPull)
    case 12 => Opcode(BIT, Absolute)
    case 13 => Opcode(AND, Absolute)
    case 14 => Opcode(ROL, Absolute)
    case _ => Opcode(AND, AbsoluteLong)
  }

  function Row3(low: nat): Opcode {
    match low
    case 0 => Opcode(BMI, ProgramCounterRelative)
    case 1 => Opcode(AND, DirectPageIndirectIndexedY)
    case 2 => Opcode(AND, DirectPageIndirect)
    case 3 => Opcode(AND, StackRelativeIndirectIndexedY)
    case 4 => Opcode(BIT, DirectPageIndexedX)
    case 5 => Opcode(AND, DirectPageIndexedX)
    case 6 => Opcode(ROL, DirectPageIndexedX)
    case 7 => Opcode(AND, DirectPageIndirectLongIndexedY)
    case 8 => Opcode(SEC, Implied)
    case 9 => Opcode(AND, AbsoluteIndexedY)
    case 10 => Opcode(DEC, Accumulator)
    case 11 => Opcode(TSC, Implied)
    case 12 => Opcode(BIT, AbsoluteIndexedX)
    case 13 => Opcode(AND, AbsoluteIndexedX)
    case 14 => Opcode(ROL, AbsoluteIndexedX)
    case _ => Opcode(AND, AbsoluteLongIndexedX)
  }

  function Row4(low: nat): Opcode {
    match low
    case 0 => Opcode(RTI, StackRTI)
    case 1 => Opcode(EOR, DirectPageIndexedIndirectX)
    case 2 => Opcode(WDM, ProgramCounterRelative)
    case 3 => Opcode(EOR, StackRelative)
    case 4 => Opcode(MVP, BlockMove)
    case 5 => Opcode(EOR, DirectPage)
    case 6 => Opcode(LSR, DirectPage)
    case 7 => Opcode(EOR, DirectPageIndirectLong)
    case 8 => Opcode(PHA, StackPush)
    case 9 => Opcode(EOR, Immediate)
    case 10 => Opcode(LSR, Accumulator)
    case 11 => Opcode(PHK, StackPush)
    case 12 => Opcode(JMP, Absolute)
    case 13 => Opcode(EOR, Absolute)
    case 14 => Opcode(LSR, Absolute)
    case _ => Opcode(EOR, AbsoluteLong)
  }

  function Row5(low: nat): Opcode {
    match low
    case 0 => Opcode(BVC, ProgramCounterRelative)
    case 1 => Opcode(EOR, DirectPageIndirectIndexedY)
    case 2 => Opcode(EOR, DirectPageIndirect)
    case 3 => Opcode(EOR, StackRelativeIndirectIndexedY)
    case 4 => Opcode(MVN, BlockMove)
    case 5 => Opcode(EOR, DirectPageIndexedX)
    case 6 => Opcode(LSR, DirectPageIndexedX)
    case 7 => Opcode(EOR, DirectPageIndirectLongIndexedY)
    case 8 => Opcode(CLI, Implied)
    case 9 => Opcode(EOR, AbsoluteIndexedY)
    case 10 => Opcode(PHY, StackPush)
    case 11 => Opcode(TCD, Implied)
    case 12 => Opcode(JMP, AbsoluteLong)
    case 13 => Opcode(EOR, AbsoluteIndexedX)
    case 14 => Opcode(LSR, AbsoluteIndexedX)
    case _ => Opcode(EOR, AbsoluteLongIndexedX)
  }

  function Row6(low: nat): Opcode {
    match low
    case 0 => Opcode(RTS, StackRTS)
    case 1 => Opcode(ADC, DirectPageIndexedIndirectX)
    case 2 => Opcode(PER, StackProgramCounterRelativeLong)
    case 3 => Opcode(ADC, StackRelative)
    case 4 => Opcode(STZ, DirectPage)
    case 5 => Opcode(ADC, DirectPage)
    case 6 => Opcode(ROR, DirectPage)
    case 7 => Opcode(ADC, DirectPageIndirectLong)
    case 8 => Opcode(PLA, StackPull)
    case 9 => Opcode(ADC, Immediate)
    case 10 => Opcode(ROR, Accumulator)
    case 11 => Opcode(RTL, StackRTL)
    case 12 => Opcode(JMP, AbsoluteIndirect)
    case 13 => Opcode(ADC, Absolute)
    case 14 => Opcode(ROR, Absolute)
    case _ => Opcode(ADC, AbsoluteLong)
  }

  function Row7(low: nat): Opcode {
    match low
    case 0 => Opcode(BVS, ProgramCounterRelative)
    case 1 => Opcode(ADC, DirectPageIndirectIndexedY)
    case 2 => Opcode(ADC, DirectPageIndirect)
    case 3 => Opcode(ADC, StackRelativeIndirectIndexedY)
    case 4 => Opcode(STZ, DirectPageIndexedX)
    case 5 => Opcode(ADC, DirectPageIndexedX)
    case 6 => Opcode(ROR, DirectPageIndexedX)
    case 7 => Opcode(ADC, DirectPageIndirectLongIndexedY)
    case 8 => Opcode(SEI, Implied)
    case 9 => Opcode(ADC, AbsoluteIndexedY)
    case 10 => Opcode(PLY, StackPull)
    case 11 => Opcode(TDC, Implied)
    case 12 => Opcode(JMP, AbsoluteIndexedIndirect)
    case 13 => Opcode(ADC, AbsoluteIndexedX)
    case 14 => Opcode(ROR, AbsoluteIndexedX)
    case _ => Opcode(ADC, AbsoluteLongIndexedX)
  }

  function Row8(low: nat): Opcode {
    match low
    case 0 => Opcode(BRA, ProgramCounterRelative)
    case 1 => Opcode(STA, DirectPageIndexedIndirectX)
    case 2 => Opcode(BRL, ProgramCounterRelativeLong)
    case 3 => Opcode(STA, StackRelative)
    case 4 => Opcode(STY, DirectPage)
    case 5 => Opcode(STA, DirectPage)
    case 6 => Opcode(STX, DirectPage)
    case 7 => Opcode(STA, DirectPageIndirectLong)
    case 8 => Opcode(DEY, Implied)
    case 9 => Opcode(BIT, Immediate)
    case 10 => Opcode(TXA, Implied)
    case 11 => Opcode(PHB, StackPush)
    case 12 => Opcode(STY, Absolute)
    case 13 => Opcode(STA, Absolute)
    case 14 => Opcode(STX, Absolute)
    case _ => Opcode(STA, AbsoluteLong)
  }

  function Row9(low: nat): Opcode {
    match low
    case 0 => Opcode(BCC, ProgramCounterRelative)
    case 1 => Opcode(STA, DirectPageIndirectIndexedY)
    case 2 => Opcode(STA, DirectPageIndirect)
    case 3 => Opcode(STA, StackRelativeIndirectIndexedY)
    case 4 => Opcode(STY, DirectPageIndexedX)
    case 5 => Opcode(STA, DirectPageIndexedX)
    case 6 => Opcode(STX, DirectPageIndexedY)
    case 7 => Opcode(STA, DirectPageIndirectLongIndexedY)
    case 8 => Opcode(TYA, Implied)
    case 9 => Opcode(STA, AbsoluteIndexedY)
    case 10 => Opcode(TXS, Implied)
    case 11 => Opcode(TXY, Implied)
    case 12 => Opcode(STZ, Absolute)
    case 13 => Opcode(STA, AbsoluteIndexedX)
    case 14 => Opcode(STZ, AbsoluteIndexedX)
    case _ => Opcode(STA, AbsoluteLongIndexedX)
  }

  function RowA(low: nat): Opcode {
    match low
    case 0 => Opcode(LDY, Immediate)
    case 1 => Opcode(LDA, DirectPageIndexedIndirectX)
    case 2 => Opcode(LDX, Immediate)
    case 3 => Opcode(LDA, StackRelative)
    case 4 => Opcode(LDY, DirectPage)
    case 5 => Opcode(LDA, DirectPage)
    case 6 => Opcode(LDX, DirectPage)
    case 7 => Opcode(LDA, DirectPageIndirectLong)
    case 8 => Opcode(TAY, Implied)
    case 9 => Opcode(LDA, Immediate)
    case 10 => Opcode(TAX, Implied)
    case 11 => Opcode(PLB, StackPull)
    case 12 => Opcode(LDY, Absolute)
    case 13 => Opcode(LDA, Absolute)
    case 14 => Opcode(LDX, Absolute)
    case _ => Opcode(LDA, AbsoluteLong)
  }

  function RowB(low: nat): Opcode {
    match low
    case 0 => Opcode(BCS, ProgramCounterRelative)
    case 1 => Opcode(LDA, DirectPageIndirectIndexedY)
    case 2 => Opcode(LDA, DirectPageIndirect)
    case 3 => Opcode(LDA, StackRelativeIndirectIndexedY)
    case 4 => Opcode(LDY, DirectPageIndexedX)
    case 5 => Opcode(LDA, DirectPageIndexedX)
    case 6 => Opcode(LDX, DirectPageIndexedY)
    case 7 => Opcode(LDA, DirectPageIndirectLongIndexedY)
    case 8 => Opcode(CLV, Implied)
    case 9 => Opcode(LDA, AbsoluteIndexedY)
    case 10 => Opcode(TSX, Implied)
    case 11 => Opcode(TYX, Implied)
    case 12 => Opcode(LDY, AbsoluteIndexedY)
    case 13 => Opcode(LDA, AbsoluteIndexedX)
    case 14 => Opcode(LDX, AbsoluteIndexedY)
    case _ => Opcode(LDA, AbsoluteLongIndexedX)
  }

  function RowC(low: nat): Opcode {
    match low
    case 0 => Opcode(CPY, Immediate)
    case 1 => Opcode(CMP, DirectPageIndexedIndirectX)
    case 2 => Opcode(REP, Immediate)
    case 3 => Opcode(CMP, StackRelative)
    case 4 => Opcode(CPY, DirectPage)
    case 5 => Opcode(CMP, DirectPage)
    case 6 => Opcode(DEC, DirectPage)
    case 7 => Opcode(CMP, DirectPageIndirectLong)
    case 8 => Opcode(INY, Implied)
    case 9 => Opcode(CMP, Immediate)
    case 10 => Opcode(DEX, Implied)
    case 11 => Opcode(WAI, Implied)
    case 12 => Opcode(CPY, Absolute)
    case 13 => Opcode(CMP, Absolute)
    case 14 => Opcode(DEC, Absolute)
    case _ => Opcode(CMP, AbsoluteLong)
  }

  function RowD(low: nat): Opcode {
    match low
    case 0 => Opcode(BNE, ProgramCounterRelative)
    case 1 => Opcode(CMP, DirectPageIndirectIndexedY)
    case 2 => Opcode(CMP, DirectPageIndirect)
    case 3 => Opcode(CMP, StackRelativeIndirectIndexedY)
    case 4 => Opcode(PEI, StackDirectPageIndirect)
    case 5 => Opcode(CMP, DirectPageIndexedX)
    case 6 => Opcode(DEC, DirectPageIndexedX)
    case 7 => Opcode(CMP, DirectPageIndirectLongIndexedY)
    case 8 => Opcode(CLD, Implied)
    case 9 => Opcode(CMP, AbsoluteIndexedY)
    case 10 => Opcode(PHX, StackPush)
    case 11 => Opcode(STP, Implied)
    case 12 => Opcode(JMP, AbsoluteIndirectLong)
    case 13 => Opcode(CMP, AbsoluteIndexedX)
    case 14 => Opcode(DEC, AbsoluteIndexedX)
    case _ => Opcode(CMP, AbsoluteLongIndexedX)
  }

  function RowE(low: nat): Opcode {
    match low
    case 0 => Opcode(CPX, Immediate)
    case 1 => Opcode(SBC, DirectPageIndexedIndirectX)
    case 2 => Opcode(SEP, Immediate)
    case 3 => Opcode(SBC, StackRelative)
    case 4 => Opcode(CPX, DirectPage)
    case 5 => Opcode(SBC, DirectPage)
    case 6 => Opcode(INC, DirectPage)
    case 7 => Opcode(SBC, DirectPageIndirectLong)
    case 8 => Opcode(INX, Implied)
    case 9 => Opcode(SBC, Immediate)
    case 10 => Opcode(NOP, Implied)
    case 11 => Opcode(XBA, Implied)
    case 12 => Opcode(CPX, Absolute)
    case 13 => Opcode(SBC, Absolute)
    case 14 => Opcode(INC, Absolute)
    case _ => Opcode(SBC, AbsoluteLong)
  }

  function RowF(low: nat): Opcode {
    match low
    case 0 => Opcode(BEQ, ProgramCounterRelative)
    case 1 => Opcode(SBC, DirectPageIndirectIndexedY)
    case 2 => Opcode(SBC, DirectPageIndirect)
    case 3 => Opcode(SBC, StackRelativeIndirectIndexedY)
    case 4 => Opcode(PEA, StackAbsolute)
    case 5 => Opcode(SBC, DirectPageIndexedX)
    case 6 => Opcode(INC, DirectPageIndexedX)
    case 7 => Opcode(SBC, DirectPageIndirectLongIndexedY)
    case 8 => Opcode(SED, Implied)
    case 9 => Opcode(SBC, AbsoluteIndexedY)
    case 10 => Opcode(PLX, StackPull)
    case 11 => Opcode(XCE, Implied)
    case 12 => Opcode(JSR, AbsoluteIndexedIndirect)
    case 13 => Opcode(SBC, AbsoluteIndexedX)
    case 14 => Opcode(INC, AbsoluteIndexedX)
    case _ => Opcode(SBC, AbsoluteLongIndexedX)
  }

  /** The table entry of an opcode byte. */
  function Ops(word: u8): Opcode {
    var low := word % 0x10;
    match word / 0x10
    case 0 => Row0(low)
    case 1 => Row1(low)
    case 2 => Row2(low)
    case 3 => Row3(low)
    case 4 => Row4(low)
    case 5 => Row5(low)
    case 6 => Row6(low)
    case 7 => Row7(low)
    case 8 => Row8(low)
    case 9 => Row9(low)
    case 10 => RowA(low)
    case 11 => RowB(low)
    case 12 => RowC(low)
    case 13 => RowD(low)
    case 14 => RowE(low)
    case _ => RowF(low)
  }
}
