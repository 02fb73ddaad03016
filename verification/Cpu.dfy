/** Prefetch and execution: the processor as a machine with one instruction already read ahead. */
module CpuCore {
  import opened Bytes
  import opened BusMemory
  import opened CpuRegisters
  import opened CpuMachine
  import opened Opcodes
  import opened AddressingModes
  import opened Instructions

  datatype Instruction = Instruction(word: u8, opcode: Opcode, operandSize: nat, operand: u32)

  datatype Cpu = Cpu(s: Machine, cur: Instruction)

  predicate IsMSensitive(mne: Mnemonic) {
    mne == ORA || mne == AND || mne == EOR || mne == ADC || mne == BIT || mne == LDA || mne == CMP || mne == SBC
  }

  predicate IsXSensitive(mne: Mnemonic) { mne == LDY || mne == LDX || mne == CPY || mne == CPX }

  predicate IsAlwaysOne(mne: Mnemonic) { mne == SEP || mne == REP }

  /** The operand bytes of an immediate, read off the status bits. */
  function ImmediateSize(r: Regs, mne: Mnemonic): nat {
    if r.emulation then 1
    else if IsMSensitive(mne) && r.p.m then 1
    else if IsXSensitive(mne) && r.p.x then 1
    else if IsAlwaysOne(mne) then 1
    else 2
  }

  function OperandSize(r: Regs, op: Opcode): (n: nat)
    ensures n <= 3
  {
    match op.mode
    case Accumulator | Implied | StackPull | StackPush | StackRTI | StackRTL | StackRTS => 0
    case DirectPage | DirectPageIndexedX | DirectPageIndexedY | DirectPageIndexedIndirectX | DirectPageIndirect
         | DirectPageIndirectLong | DirectPageIndirectIndexedY | DirectPageIndirectLongIndexedY
         | ProgramCounterRelative | StackDirectPageIndirect | StackInterrupt | StackRelative
         | StackRelativeIndirectIndexedY => 1
    case Absolute | AbsoluteIndexedX | AbsoluteIndexedY | AbsoluteIndexedIndirect | AbsoluteIndirect
         | AbsoluteIndirectLong | BlockMove | ProgramCounterRelativeLong | StackAbsolute
         | StackProgramCounterRelativeLong => 2
    case AbsoluteLong | AbsoluteLongIndexedX => 3
    case Immediate => ImmediateSize(r, op.mne)
  }

  lemma SizeIgnoresPc(r: Regs, pc: u16, op: Opcode)
    ensures OperandSize(r.(pc := pc), op) == OperandSize(r, op)
  {
  }

  function Power256(n: nat): nat { if n == 0 then 1 else 0x100 * Power256(n - 1) }

  /** `size` operand bytes, little-endian; they are read from bank 0 whatever the program bank is. */
  function OperandAt(m: Memory, pc: u16, size: nat): (v: nat)
    ensures v < Power256(size)
    decreases size
  {
    if size == 0 then 0 else Read(m, pc) + 0x100 * OperandAt(m, Trunc16(pc + 1), size - 1)
  }

  lemma OperandFits(size: nat)
    requires size <= 3
    ensures Power256(size) <= 0x100_0000
  {
    assert Power256(0) == 1 && Power256(1) == 0x100 && Power256(2) == 0x1_0000 && Power256(3) == 0x100_0000;
  }

  function Decoded(s: Machine): Instruction {
    var word := Read(s.m, s.r.pc + s.r.ProgramBank());
    var size := OperandSize(s.r, Ops(word));
    OperandFits(size);
    Instruction(word, Ops(word), size, OperandAt(s.m, Trunc16(s.r.pc + 1), size))
  }

  /** `snes_cpu_update_next_instruction`: read the instruction at the program counter and step past it. */
  function Prefetch(s: Machine): Cpu {
    var cur := Decoded(s);
    Cpu(s.WithRegs(s.r.(pc := Trunc16(s.r.pc + 1 + cur.operandSize))), cur)
  }

  /** The processor at power-up, with its first instruction read ahead. */
  function PowerUp(m: Memory, reset: u16): Cpu { Prefetch(Machine(INITIAL.(pc := reset), m)) }

  lemma PrefetchKeepsRegisters(s: Machine)
    ensures var c := Prefetch(s); c.s.m == s.m && c.s.r == s.r.(pc := c.s.r.pc)
    ensures var c := Prefetch(s); c.cur.operandSize == OperandSize(c.s.r, c.cur.opcode)
  {
    hide BusMemory.Read, Ops, OperandAt;
  }

  /** `snes_cpu_execute_instruction`, on the instruction that was read ahead. */
  function Executed(c: Cpu, junk: u32): Machine {
    var op := c.cur.opcode;
    Execute(c.s, op.mne, Resolve(c.s, op.mne, op.mode, c.cur.operand, junk))
  }

  /** One turn of the run loop; `junk` is what an uninitialised local may hold meanwhile. */
  function Step(c: Cpu, junk: u32): Cpu { Prefetch(Executed(c, junk)) }

  function Run(c: Cpu, junks: seq<u32>): Cpu
    decreases |junks|
  {
    if junks == [] then c else Run(Step(c, junks[0]), junks[1..])
  }

  lemma {:induction false} RunConcat(c: Cpu, a: seq<u32>, b: seq<u32>)
    ensures Run(c, a + b) == Run(Run(c, a), b)
    decreases |a|
  {
    hide Step;
    if a == [] {
      assert a + b == b;
    } else {
      assert (a + b)[1..] == a[1..] + b;
      RunConcat(Step(c, a[0]), a[1..], b);
    }
  }

  /** Fetching an instruction and executing it, with nothing read ahead yet. */
  function Turn(s: Machine, junk: u32): Machine { Executed(Prefetch(s), junk) }

  function Turns(s: Machine, junks: seq<u32>): Machine
    decreases |junks|
  {
    if junks == [] then s else Turns(Turn(s, junks[0]), junks[1..])
  }

  /** Each fetch comes right after the execution before it, so reading ahead does not show in a run. */
  lemma {:induction false} RunIsTurns(s: Machine, junks: seq<u32>)
    ensures Run(Prefetch(s), junks) == Prefetch(Turns(s, junks))
    decreases |junks|
  {
    hide Prefetch, Executed;
    if junks != [] {
      RunIsTurns(Turn(s, junks[0]), junks[1..]);
    }
  }

  lemma {:induction false} TurnsConcat(s: Machine, a: seq<u32>, b: seq<u32>)
    ensures Turns(s, a + b) == Turns(Turns(s, a), b)
    decreases |a|
  {
    hide Turn;
    if a == [] {
      assert a + b == b;
    } else {
      assert (a + b)[1..] == a[1..] + b;
      TurnsConcat(Turn(s, a[0]), a[1..], b);
    }
  }

  /** The address the breakpoint check computes for the instruction that was read ahead. */
  function InstructionAddress(c: Cpu): u32 {
    Trunc32(c.s.r.pc + c.s.r.ProgramBank() - c.cur.operandSize - 1)
  }

  // ---- fetching what was encoded

  /** The bytes of an instruction: the opcode, then the operand with its low byte first. */
  function LittleEndian(v: nat, size: nat): (b: seq<u8>)
    ensures |b| == size
  {
    if size == 0 then [] else [v % 0x100] + LittleEndian(v / 0x100, size - 1)
  }

  /** Operands of two, one and no bytes. */
  lemma SmallOperands(word: u16, byte: u8)
    ensures LittleEndian(word, 2) == [Low(word), High(word)] && Power256(2) == 0x1_0000
    ensures LittleEndian(byte, 1) == [byte] && Power256(1) == 0x100
    ensures LittleEndian(0, 0) == [] && Power256(0) == 1
  {
    assert LittleEndian(word, 2) == [word % 0x100] + LittleEndian(word / 0x100, 1);
    assert Power256(2) == 0x100 * Power256(1);
  }

  /** Bytes read at successive offsets of bank 0, wrapping within it. */
  predicate Holds(m: Memory, pc: u16, bytes: seq<u8>) {
    forall i :: 0 <= i < |bytes| ==> Read(m, Trunc16(pc + i)) == bytes[i]
  }

  lemma {:induction false} OperandHeld(m: Memory, pc: u16, v: nat, size: nat)
    requires Holds(m, pc, LittleEndian(v, size)) && v < Power256(size)
    ensures OperandAt(m, pc, size) == v
    decreases size
  {
    hide BusMemory.Read;
    if size > 0 {
      HoldsTail(m, pc, LittleEndian(v, size));
      OperandHeld(m, Trunc16(pc + 1), v / 0x100, size - 1);
    }
  }

  lemma HoldsTail(m: Memory, pc: u16, bytes: seq<u8>)
    requires bytes != [] && Holds(m, pc, bytes)
    ensures Read(m, pc) == bytes[0] && Holds(m, Trunc16(pc + 1), bytes[1..])
  {
    hide BusMemory.Read;
    assert Read(m, Trunc16(pc + 0)) == bytes[0];
    forall i | 0 <= i < |bytes| - 1
      ensures Read(m, Trunc16(Trunc16(pc + 1) + i)) == bytes[1..][i]
    {
      assert Trunc16(Trunc16(pc + 1) + i) == Trunc16(pc + (i + 1));
    }
  }

  /**
   An opcode at the program counter and a little-endian operand behind it in bank 0 come back from
   the fetch, which leaves the counter 1 + size further, modulo 64K. With the program bank at 0 that
   is any instruction encoded in bank 0.
   */
  lemma FetchDecodesEncoding(s: Machine, word: u8, v: nat)
    requires var size := OperandSize(s.r, Ops(word));
             && v < Power256(size)
             && Read(s.m, s.r.pc + s.r.ProgramBank()) == word
             && Holds(s.m, Trunc16(s.r.pc + 1), LittleEndian(v, size))
    ensures var c := Prefetch(s); var size := OperandSize(s.r, Ops(word));
            && c.cur == Instruction(word, Ops(word), size, v)
            && c.s == s.WithRegs(s.r.(pc := Trunc16(s.r.pc + 1 + size)))
  {
    hide BusMemory.Read;
    OperandHeld(s.m, Trunc16(s.r.pc + 1), v, OperandSize(s.r, Ops(word)));
  }

  /** Part of a longer piece of code. */
  lemma HoldsWithin(m: Memory, start: u16, code: seq<u8>, k: nat, n: nat)
    requires k + n <= |code| && Holds(m, start, code)
    ensures Holds(m, Trunc16(start + k), code[k..k + n])
  {
    hide BusMemory.Read;
    var here := code[k..k + n];
    forall i | 0 <= i < |here|
      ensures Read(m, Trunc16(Trunc16(start + k) + i)) == here[i]
    {
      assert Trunc16(Trunc16(start + k) + i) == Trunc16(start + (k + i));
      assert code[k + i] == here[i];
    }
  }

  /** An instruction within a longer piece of code in bank 0, fetched with the program bank at 0. */
  lemma FetchWithin(s: Machine, start: u16, code: seq<u8>, k: nat, word: u8, v: nat)
    requires var size := OperandSize(s.r, Ops(word));
             && v < Power256(size) && s.r.pbr == 0 && s.r.pc == Trunc16(start + k)
             && k + 1 + size <= |code| && code[k..k + 1 + size] == [word] + LittleEndian(v, size)
             && Holds(s.m, start, code)
    ensures var c := Prefetch(s); var size := OperandSize(s.r, Ops(word));
            && c.cur == Instruction(word, Ops(word), size, v)
            && c.s == s.WithRegs(s.r.(pc := Trunc16(s.r.pc + 1 + size)))
  {
    hide BusMemory.Read, Prefetch, Ops, OperandSize, OperandAt, LittleEndian, Power256, Holds;
    var size := OperandSize(s.r, Ops(word));
    var here := [word] + LittleEndian(v, size);
    HoldsWithin(s.m, start, code, k, 1 + size);
    assert code[k..k + (1 + size)] == here;
    HoldsTail(s.m, s.r.pc, here);
    assert here[1..] == LittleEndian(v, size);
    FetchDecodesEncoding(s, word, v);
  }

  /** The i-th byte of code at `start` in bank 0 is not among the WRAM cells `low` to `high`, the last exclusive. */
  predicate ByteOutside(start: u16, i: nat, low: int, high: int) {
    var cell := AddrDecoder.CellOf(Trunc16(start + i));
    cell.WramCell? ==> !(low <= cell.index < high)
  }

  predicate CodeOutside(start: u16, length: nat, low: int, high: int) {
    forall i :: 0 <= i < length ==> ByteOutside(start, i, low, high)
  }

  /** Only those cells changed. */
  predicate OnlyWramChanged(m: Memory, m': Memory, low: int, high: int) {
    && m' == m.(wram := m'.wram) && |m'.wram| == |m.wram|
    && forall i :: 0 <= i < |m.wram| && !(low <= i < high) ==> m'.wram[i] == m.wram[i]
  }

  /** Then the code stays as it is. */
  lemma CodeHolds(m: Memory, m': Memory, start: u16, code: seq<u8>, low: int, high: int)
    requires Holds(m, start, code) && OnlyWramChanged(m, m', low, high) && CodeOutside(start, |code|, low, high)
    ensures Holds(m', start, code)
  {
    hide AddrDecoder.CellOf;
    forall i | 0 <= i < |code|
      ensures Read(m', Trunc16(start + i)) == code[i]
    {
      assert ByteOutside(start, i, low, high);
    }
  }

  /** The bytes of code, or of a table, are in the memories that are there. */
  predicate BytePresent(m: Memory, start: u16, i: nat) { InRange(m, Trunc16(start + i)) }

  predicate Present(m: Memory, start: u16, length: nat) {
    forall i :: 0 <= i < length ==> BytePresent(m, start, i)
  }

  /** What is in range depends on the sizes of the memories only. */
  lemma RangeStays(m: Memory, m': Memory, start: u16, length: nat)
    requires SameShape(m, m') && Present(m, start, length)
    ensures Present(m', start, length)
  {
    forall i | 0 <= i < length
      ensures BytePresent(m', start, i)
    {
      assert BytePresent(m, start, i);
      SameRange(m, m', Trunc16(start + i));
    }
  }

  lemma SameRange(m: Memory, m': Memory, addr: u32)
    requires SameShape(m, m')
    ensures InRange(m, addr) == InRange(m', addr)
  {
    hide AddrDecoder.CellOf;
  }

  /** The breakpoint check recovers the fetch address exactly when the counter did not wrap. */
  lemma BreakpointAddressIff(s: Machine)
    ensures var c := Prefetch(s);
            InstructionAddress(c) == s.r.pc + s.r.ProgramBank() <==>
              s.r.pc + 1 + c.cur.operandSize < 0x1_0000
  {
    hide BusMemory.Read, Ops, OperandSize, OperandAt;
  }

  /** Bytes written through the bus into the low page are read back. */
  lemma {:induction false} EncodeHolds(m: Memory, pc: u16, bytes: seq<u8>)
    requires pc + |bytes| <= AddrDecoder.LOW_PAGE <= |m.wram|
    ensures Holds(WriteBytes(m, pc, bytes), pc, bytes)
    ensures forall a: u16 :: a < pc ==> Read(WriteBytes(m, pc, bytes), a) == Read(m, a)
    ensures |WriteBytes(m, pc, bytes).wram| == |m.wram|
    decreases |bytes|
  {
    hide BusMemory.Read, BusMemory.Write;
    if bytes != [] {
      var m' := WriteBytes(m, pc + 1, bytes[1..]);
      EncodeHolds(m, pc + 1, bytes[1..]);
      forall a: u16
        ensures Read(Write(m', pc, bytes[0]), a) == if a == pc then bytes[0] else Read(m', a)
        ensures |Write(m', pc, bytes[0]).wram| == |m.wram|
      {
        LowPageWrite(m', pc, bytes[0], a);
      }
      forall i | 0 <= i < |bytes|
        ensures Read(Write(m', pc, bytes[0]), Trunc16(pc + i)) == bytes[i]
      {
        if i > 0 {
          assert Trunc16(pc + i) == Trunc16(pc + 1 + (i - 1));
          assert bytes[1..][i - 1] == bytes[i];
        }
      }
    }
  }

  lemma LowPageWrite(m: Memory, pc: u16, v: u8, a: u16)
    requires pc < AddrDecoder.LOW_PAGE <= |m.wram|
    ensures Read(Write(m, pc, v), a) == if a == pc then v else Read(m, a)
    ensures |Write(m, pc, v).wram| == |m.wram|
  {
    LowPageIsWram(pc);
    LowPageIsWram(a);
    hide AddrDecoder.CellOf;
  }

  lemma LowPageIsWram(a: u16)
    ensures a < AddrDecoder.LOW_PAGE ==> AddrDecoder.CellOf(a) == AddrDecoder.WramCell(a)
    ensures a >= AddrDecoder.LOW_PAGE ==> !AddrDecoder.CellOf(a).WramCell?
  {
  }

  lemma LowPagePresent(m: Memory, start: u16, length: nat)
    requires start + length <= AddrDecoder.LOW_PAGE <= |m.wram|
    ensures Present(m, start, length)
  {
    forall i | 0 <= i < length
      ensures BytePresent(m, start, i)
    {
      LowPageIsWram(start + i);
    }
  }

  /** Successive bytes written through the bus, the last one first. */
  function WriteBytes(m: Memory, pc: u16, bytes: seq<u8>): Memory
    requires pc + |bytes| <= 0x1_0000
    decreases |bytes|
  {
    if bytes == [] then m
    else if |bytes| == 1 then Write(m, pc, bytes[0])
    else Write(WriteBytes(m, pc + 1, bytes[1..]), pc, bytes[0])
  }

  /** Encoding by bus writes into the low page, then fetching, gives the instruction back. */
  lemma EncodeThenFetch(s: Machine, word: u8, v: nat)
    requires var size := OperandSize(s.r, Ops(word));
             && v < Power256(size)
             && s.r.pbr == 0 && s.r.pc + 1 + size <= AddrDecoder.LOW_PAGE <= |s.m.wram|
    ensures var size := OperandSize(s.r, Ops(word));
            var coded := Machine(s.r, WriteBytes(s.m, s.r.pc, [word] + LittleEndian(v, size)));
            && Prefetch(coded).cur == Instruction(word, Ops(word), size, v)
            && Prefetch(coded).s.r == s.r.(pc := s.r.pc + 1 + size)
            && InstructionAddress(Prefetch(coded)) == s.r.pc
  {
    hide BusMemory.Read, Prefetch, Ops, OperandSize, OperandAt, Holds, InstructionAddress, WriteBytes;
    var size := OperandSize(s.r, Ops(word));
    var bytes := [word] + LittleEndian(v, size);
    var coded := Machine(s.r, WriteBytes(s.m, s.r.pc, bytes));
    EncodeHolds(s.m, s.r.pc, bytes);
    HoldsTail(coded.m, s.r.pc, bytes);
    assert bytes[1..] == LittleEndian(v, size);
    FetchDecodesEncoding(coded, word, v);
    BreakpointAddressIff(coded);
  }
}
