/** A small assembler for guest code in bank 0: running its bytes is stepping through its lines. */
module Assembly {
  import opened Bytes
  import opened BusMemory
  import opened CpuRegisters
  import opened CpuMachine
  import opened Opcodes
  import opened AddressingModes
  import opened Instructions
  import opened CpuCore

  /** A line of a program with an 8-bit accumulator and 16-bit indices; branches name a line. */
  datatype Line =
    | LoadA(addr: u16) | LoadAIndexed(addr: u16) | StoreA(addr: u16)
    | CompareA(byte: u8) | CompareAWith(addr: u16)
    | LoadX(word: u16) | CompareX(word: u16) | IncrementX
    | IfZero(to: nat) | UnlessZero(to: nat) | Always(to: nat)

  function OpcodeByte(l: Line): u8 {
    match l
    case LoadA(_) => 0xAD
    case LoadAIndexed(_) => 0xBD
    case StoreA(_) => 0x8D
    case CompareA(_) => 0xC9
    case CompareAWith(_) => 0xCD
    case LoadX(_) => 0xA2
    case CompareX(_) => 0xE0
    case IncrementX => 0xE8
    case IfZero(_) => 0xF0
    case UnlessZero(_) => 0xD0
    case Always(_) => 0x80
  }

  function OpcodeOf(l: Line): Opcode {
    match l
    case LoadA(_) => Opcode(LDA, Absolute)
    case LoadAIndexed(_) => Opcode(LDA, AbsoluteIndexedX)
    case StoreA(_) => Opcode(STA, Absolute)
    case CompareA(_) => Opcode(CMP, Immediate)
    case CompareAWith(_) => Opcode(CMP, Absolute)
    case LoadX(_) => Opcode(LDX, Immediate)
    case CompareX(_) => Opcode(CPX, Immediate)
    case IncrementX => Opcode(INX, Implied)
    case IfZero(_) => Opcode(BEQ, ProgramCounterRelative)
    case UnlessZero(_) => Opcode(BNE, ProgramCounterRelative)
    case Always(_) => Opcode(BRA, ProgramCounterRelative)
  }

  predicate IsJump(l: Line) { l.IfZero? || l.UnlessZero? || l.Always? }

  function OperandBytes(l: Line): nat {
    if l.IncrementX? then 0 else if l.CompareA? || IsJump(l) then 1 else 2
  }

  /** Where a line begins, from the start of the code. */
  function CodeOffset(lines: seq<Line>, j: nat): nat
    requires j <= |lines|
  {
    if j == 0 then 0 else CodeOffset(lines, j - 1) + 1 + OperandBytes(lines[j - 1])
  }

  /** The distance a branch on line `j` covers, counted from the line behind it. */
  function Displacement(lines: seq<Line>, j: nat): int
    requires j < |lines| && IsJump(lines[j])
  {
    if lines[j].to < |lines| then CodeOffset(lines, lines[j].to) - CodeOffset(lines, j + 1) else 0
  }

  /** Branches stay within the program and within their reach. */
  predicate Assembles(lines: seq<Line>) { forall j :: 0 <= j < |lines| ==> BranchFits(lines, j) }

  predicate BranchFits(lines: seq<Line>, j: nat)
    requires j < |lines|
  {
    IsJump(lines[j]) ==> lines[j].to < |lines| && -0x80 <= Displacement(lines, j) < 0x80
  }

  function OperandOf(lines: seq<Line>, j: nat): u16
    requires j < |lines|
  {
    match lines[j]
    case LoadA(a) => a
    case LoadAIndexed(a) => a
    case StoreA(a) => a
    case CompareA(v) => v
    case CompareAWith(a) => a
    case LoadX(v) => v
    case CompareX(v) => v
    case IncrementX => 0
    case _ => Trunc8(Displacement(lines, j))
  }

  /** The bytes of the first `n` lines. */
  function Assembled(lines: seq<Line>, n: nat): (code: seq<u8>)
    requires n <= |lines|
    ensures |code| == CodeOffset(lines, n)
  {
    if n == 0 then [] else
    Assembled(lines, n - 1) + [OpcodeByte(lines[n - 1])]
      + LittleEndian(OperandOf(lines, n - 1), OperandBytes(lines[n - 1]))
  }

  function Code(lines: seq<Line>): seq<u8> { Assembled(lines, |lines|) }

  /** Opcode and operand of a line. */
  function Encoded(lines: seq<Line>, j: nat): (bytes: seq<u8>)
    requires j < |lines|
    ensures |bytes| == 1 + OperandBytes(lines[j])
  {
    [OpcodeByte(lines[j])] + LittleEndian(OperandOf(lines, j), OperandBytes(lines[j]))
  }

  lemma AssembledNext(lines: seq<Line>, n: nat)
    requires n < |lines|
    ensures Assembled(lines, n + 1) == Assembled(lines, n) + Encoded(lines, n)
    ensures CodeOffset(lines, n + 1) == CodeOffset(lines, n) + |Encoded(lines, n)|
  {
    hide OpcodeByte, OperandOf, OperandBytes, LittleEndian;
  }

  lemma SumParts(a: seq<u8>, b: seq<u8>, k: nat)
    requires k <= |a|
    ensures (a + b)[..k] == a[..k] && (a + b)[|a|..] == b
  {
  }

  /** Code begins with the code of fewer lines. */
  lemma {:induction false} PrefixWithin(lines: seq<Line>, m: nat, n: nat)
    requires m <= n <= |lines|
    ensures CodeOffset(lines, m) <= CodeOffset(lines, n)
    ensures Assembled(lines, n)[..CodeOffset(lines, m)] == Assembled(lines, m)
    decreases n
  {
    hide Assembled, CodeOffset, Encoded;
    if m < n {
      PrefixWithin(lines, m, n - 1);
      AssembledNext(lines, n - 1);
      SumParts(Assembled(lines, n - 1), Encoded(lines, n - 1), CodeOffset(lines, m));
    }
  }

  /** The bytes of line `j`, wherever the code ends. */
  lemma LineWithin(lines: seq<Line>, j: nat, n: nat)
    requires j < n <= |lines|
    ensures CodeOffset(lines, j + 1) <= CodeOffset(lines, n)
    ensures Assembled(lines, n)[CodeOffset(lines, j)..CodeOffset(lines, j + 1)] ==
            [OpcodeByte(lines[j])] + LittleEndian(OperandOf(lines, j), OperandBytes(lines[j]))
  {
    hide Assembled, CodeOffset, OpcodeByte, OperandOf, OperandBytes, LittleEndian;
    PrefixWithin(lines, j + 1, n);
    AssembledNext(lines, j);
    SumParts(Assembled(lines, j), Encoded(lines, j), 0);
    assert Assembled(lines, n)[CodeOffset(lines, j)..CodeOffset(lines, j + 1)]
        == Assembled(lines, n)[..CodeOffset(lines, j + 1)][CodeOffset(lines, j)..];
  }

  // ---- the machine the lines describe

  /** The next line, the accumulator's byte, the index, the zero flag, the memory. */
  datatype View = View(line: nat, a: u8, x: u16, z: bool, m: Memory)

  function StepView(lines: seq<Line>, v: View): View {
    if v.line >= |lines| then v else
    var next := v.line + 1;
    match lines[v.line]
    case LoadA(addr) => var b := Read(v.m, addr); v.(line := next, a := b, z := b == 0)
    case LoadAIndexed(addr) => var b := Read(v.m, addr + v.x); v.(line := next, a := b, z := b == 0)
    case StoreA(addr) => v.(line := next, m := Write(v.m, addr, v.a))
    case CompareA(b) => v.(line := next, z := v.a == b)
    case CompareAWith(addr) => v.(line := next, z := v.a == Read(v.m, addr))
    case LoadX(w) => v.(line := next, x := w, z := w == 0)
    case CompareX(w) => v.(line := next, z := v.x == w)
    case IncrementX => var w := Trunc16(v.x + 1); v.(line := next, x := w, z := w == 0)
    case IfZero(to) => v.(line := if v.z then to else next)
    case UnlessZero(to) => v.(line := if v.z then next else to)
    case Always(to) => v.(line := to)
  }

  /** Native mode, an 8-bit accumulator, 16-bit indices, both banks at 0. */
  predicate Fitting(r: Regs) {
    && !r.emulation && r.p.m && !r.p.x && r.acc.len == Eight && r.x.len == Sixteen
    && r.pbr == 0 && r.dbr == 0
  }

  predicate Shows(s: Machine, v: View) {
    && Fitting(s.r) && s.r.acc.Low() == v.a && s.r.x.value == v.x && s.r.p.z == v.z && s.m == v.m
  }

  function LineInstruction(lines: seq<Line>, j: nat): Instruction
    requires j < |lines|
  {
    Instruction(OpcodeByte(lines[j]), OpcodeOf(lines[j]), OperandBytes(lines[j]), OperandOf(lines, j))
  }

  /** The counter at the beginning of a line. */
  function LineStart(lines: seq<Line>, start: u16, j: nat): u16
    requires j <= |lines|
  {
    Trunc16(start + CodeOffset(lines, j))
  }

  /** The processor with the code at `start` and the line's instruction read ahead. */
  predicate Stands(c: Cpu, lines: seq<Line>, start: u16, v: View) {
    && v.line < |lines| && c.cur == LineInstruction(lines, v.line)
    && Shows(c.s, v) && c.s.r.pc == LineStart(lines, start, v.line + 1)
    && Holds(v.m, start, Code(lines))
  }

  // ---- fetching

  lemma OpcodesUsed(l: Line)
    ensures Ops(OpcodeByte(l)) == OpcodeOf(l)
  {
  }

  lemma SizesUsed(r: Regs, l: Line)
    requires Fitting(r)
    ensures OperandSize(r, OpcodeOf(l)) == OperandBytes(l)
  {
  }

  lemma OperandsFit(lines: seq<Line>, j: nat)
    requires j < |lines|
    ensures OperandOf(lines, j) < Power256(OperandBytes(lines[j]))
  {
    assert Power256(0) == 1 && Power256(1) == 0x100 && Power256(2) == 0x1_0000;
  }

  /** A machine at the beginning of a line fetches that line. */
  lemma FetchesLine(s: Machine, lines: seq<Line>, start: u16, v: View)
    requires v.line < |lines| && Shows(s, v) && s.r.pc == LineStart(lines, start, v.line)
    requires Holds(v.m, start, Code(lines))
    ensures Stands(Prefetch(s), lines, start, v)
  {
    hide Prefetch, Ops, OperandSize, OpcodeByte, OpcodeOf, OperandOf, OperandBytes, Power256, LittleEndian, Holds;
    hide Assembled;
    var j := v.line;
    OpcodesUsed(lines[j]);
    SizesUsed(s.r, lines[j]);
    OperandsFit(lines, j);
    LineWithin(lines, j, |lines|);
    FetchWithin(s, start, Code(lines), CodeOffset(lines, j), OpcodeByte(lines[j]), OperandOf(lines, j));
    NextLine(start, CodeOffset(lines, j), 1 + OperandBytes(lines[j]));
  }

  lemma NextLine(start: u16, offset: nat, size: nat)
    ensures Trunc16(Trunc16(start + offset) + size) == Trunc16(start + (offset + size))
  {
  }

  // ---- executing

  /** The counter apart, the machine shows what the line says. */
  predicate Reaches(s: Machine, t: Machine, v: View) { Shows(t, v) && t.r.pc == s.r.pc }

  lemma LoadReaches(s: Machine, v: View, eff: Effective)
    requires Shows(s, v) && eff.kind == SimpleAddress
    ensures var b := Read(v.m, eff.address); Reaches(s, Execute(s, LDA, eff), v.(a := b, z := b == 0))
  {
    hide Execute, BusMemory.Read, Low, High, Word, Signed8;
    ExecuteLda(s, eff);
    LowOfByte(Read(v.m, eff.address));
    WordParts(Read(v.m, eff.address), s.r.acc.High());
  }

  lemma LowOfByte(b: u8)
    ensures Low(b) == b
  {
  }

  lemma SmallWord(b: u8)
    ensures Trunc16(b) == b
  {
  }

  /** A difference of bytes is 0 only if they are equal. */
  lemma ByteDifference(a: u8, b: u8)
    ensures Trunc8(a - b) == 0 <==> a == b
  {
  }

  lemma StoreReaches(s: Machine, v: View, eff: Effective)
    requires Shows(s, v)
    ensures Reaches(s, Execute(s, STA, eff), v.(m := Write(v.m, eff.address, v.a)))
  {
    hide Execute, BusMemory.Write;
    ExecuteSta(s, eff);
  }

  lemma CompareReaches(s: Machine, v: View, eff: Effective)
    requires Shows(s, v) && eff.kind == SimpleAddress
    ensures Reaches(s, Execute(s, CMP, eff), v.(z := v.a == Read(v.m, eff.address)))
  {
    hide Execute, BusMemory.Read, Low, Trunc8, Signed8;
    ExecuteCmp(s, eff);
    LowOfByte(Read(v.m, eff.address));
    ByteDifference(v.a, Read(v.m, eff.address));
  }

  lemma CompareByteReaches(s: Machine, v: View, b: u8)
    requires Shows(s, v)
    ensures Reaches(s, Execute(s, CMP, Effective(ImmediateData, b)), v.(z := v.a == b))
  {
    hide Execute, Low, Trunc8, Signed8;
    ExecuteCmp(s, Effective(ImmediateData, b));
    LowOfByte(b);
    SmallWord(b);
    ByteDifference(v.a, b);
  }

  lemma LoadXReaches(s: Machine, v: View, w: u16)
    requires Shows(s, v)
    ensures Reaches(s, Execute(s, LDX, Effective(ImmediateData, w)), v.(x := w, z := w == 0))
  {
    hide Execute;
    ExecuteLdx(s, Effective(ImmediateData, w));
  }

  lemma CompareXReaches(s: Machine, v: View, w: u16)
    requires Shows(s, v)
    ensures Reaches(s, Execute(s, CPX, Effective(ImmediateData, w)), v.(z := v.x == w))
  {
    hide Execute;
    ExecuteCpx(s, Effective(ImmediateData, w));
  }

  lemma IncrementReaches(s: Machine, v: View, eff: Effective)
    requires Shows(s, v)
    ensures var w := Trunc16(v.x + 1); Reaches(s, Execute(s, INX, eff), v.(x := w, z := w == 0))
  {
    hide Execute;
    ExecuteInx(s, eff);
  }

  lemma BranchReaches(s: Machine, v: View, taken: bool, eff: Effective)
    requires Shows(s, v)
    ensures var t := Branch(s, taken, eff);
            Shows(t, v) && t.r.pc == if taken then Trunc16(eff.address) else s.r.pc
  {
  }

  /** A branch whose operand is the assembled distance ends where its target line begins. */
  lemma BranchLands(start: u16, here: nat, to: nat)
    requires -0x80 <= to - here < 0x80
    ensures Trunc16(Trunc32(Trunc16(start + here) + Signed8(Trunc8(to - here)))) == Trunc16(start + to)
  {
    var d := to - here;
    assert Signed8(Trunc8(d)) == d;
    WrapsTwice(Trunc16(start + here) + d);
    var q := (start + here) / 0x1_0000;
    assert Trunc16(start + here) == start + here - 0x1_0000 * q;
    Shifted(start + to, q);
  }

  lemma WrapsTwice(x: int)
    ensures Trunc16(Trunc32(x)) == Trunc16(x)
  {
  }

  lemma Shifted(x: int, q: int)
    ensures Trunc16(x - 0x1_0000 * q) == Trunc16(x)
  {
  }

  // ---- one step

  /** Executing the line read ahead: the view moves as the line says, the counter to its next line. */
  predicate Lands(t: Machine, lines: seq<Line>, start: u16, v: View)
    requires v.line <= |lines|
  {
    Shows(t, v) && t.r.pc == LineStart(lines, start, v.line)
  }

  /** Fitting registers leave an address as it is. */
  lemma FittingBank(r: Regs)
    requires Fitting(r)
    ensures r.DataBank() == 0 && r.x.Visible() == r.x.value
  {
  }

  /** What executing comes to, once the effective address is known. */
  lemma LandsFrom(c: Cpu, lines: seq<Line>, start: u16, v: View, junk: u32, mne: Mnemonic, eff: Effective, u: View)
    requires Stands(c, lines, start, v) && c.cur.opcode.mne == mne && StepView(lines, v) == u.(line := v.line + 1)
    requires Resolve(c.s, mne, c.cur.opcode.mode, c.cur.operand, junk) == eff
    requires Reaches(c.s, Execute(c.s, mne, eff), u)
    ensures Lands(Executed(c, junk), lines, start, StepView(lines, v))
  {
    hide Execute, Resolve, Holds, CodeOffset, Assembled, StepView, LineInstruction;
  }

  lemma LoadALands(c: Cpu, lines: seq<Line>, start: u16, v: View, junk: u32, addr: u16)
    requires Stands(c, lines, start, v) && lines[v.line] == LoadA(addr)
    ensures Lands(Executed(c, junk), lines, start, StepView(lines, v))
  {
    hide Execute, Executed, Resolve, Holds, BusMemory.Read, CodeOffset, Assembled, Reaches;
    var eff := Effective(SimpleAddress, addr);
    FittingBank(c.s.r);
    AbsoluteResolves(c.s, LDA, addr, junk);
    LoadReaches(c.s, v, eff);
    var b := Read(v.m, eff.address);
    LandsFrom(c, lines, start, v, junk, LDA, eff, v.(a := b, z := b == 0));
  }

  lemma LoadAIndexedLands(c: Cpu, lines: seq<Line>, start: u16, v: View, junk: u32, addr: u16)
    requires Stands(c, lines, start, v) && lines[v.line] == LoadAIndexed(addr)
    ensures Lands(Executed(c, junk), lines, start, StepView(lines, v))
  {
    hide Execute, Executed, Resolve, Holds, BusMemory.Read, CodeOffset, Assembled, Reaches;
    var eff := Effective(SimpleAddress, addr + v.x);
    FittingBank(c.s.r);
    IndexedResolves(c.s, LDA, addr, junk);
    LoadReaches(c.s, v, eff);
    var b := Read(v.m, eff.address);
    LandsFrom(c, lines, start, v, junk, LDA, eff, v.(a := b, z := b == 0));
  }

  lemma StoreALands(c: Cpu, lines: seq<Line>, start: u16, v: View, junk: u32, addr: u16)
    requires Stands(c, lines, start, v) && lines[v.line] == StoreA(addr)
    ensures Lands(Executed(c, junk), lines, start, StepView(lines, v))
  {
    hide Execute, Executed, Resolve, Holds, BusMemory.Write, CodeOffset, Assembled, Reaches;
    var eff := Effective(SimpleAddress, addr);
    FittingBank(c.s.r);
    AbsoluteResolves(c.s, STA, addr, junk);
    StoreReaches(c.s, v, eff);
    LandsFrom(c, lines, start, v, junk, STA, eff, v.(m := Write(v.m, eff.address, v.a)));
  }

  lemma CompareAWithLands(c: Cpu, lines: seq<Line>, start: u16, v: View, junk: u32, addr: u16)
    requires Stands(c, lines, start, v) && lines[v.line] == CompareAWith(addr)
    ensures Lands(Executed(c, junk), lines, start, StepView(lines, v))
  {
    hide Execute, Executed, Resolve, Holds, BusMemory.Read, CodeOffset, Assembled, Reaches;
    var eff := Effective(SimpleAddress, addr);
    FittingBank(c.s.r);
    AbsoluteResolves(c.s, CMP, addr, junk);
    CompareReaches(c.s, v, eff);
    var b := Read(v.m, eff.address);
    LandsFrom(c, lines, start, v, junk, CMP, eff, v.(z := v.a == b));
  }

  lemma RegisterLineLands(c: Cpu, lines: seq<Line>, start: u16, v: View, junk: u32)
    requires Stands(c, lines, start, v)
    requires var l := lines[v.line]; l.CompareA? || l.LoadX? || l.CompareX? || l.IncrementX?
    ensures Lands(Executed(c, junk), lines, start, StepView(lines, v))
  {
    hide Execute, Resolve, Holds, CodeOffset, Assembled;
    match lines[v.line]
    case CompareA(b) =>
      ImmediateResolves(c.s, CMP, b, junk);
      CompareByteReaches(c.s, v, b);
    case LoadX(w) =>
      ImmediateResolves(c.s, LDX, w, junk);
      LoadXReaches(c.s, v, w);
    case CompareX(w) =>
      ImmediateResolves(c.s, CPX, w, junk);
      CompareXReaches(c.s, v, w);
    case IncrementX =>
      IncrementReaches(c.s, v, Resolve(c.s, INX, Implied, 0, junk));
  }

  lemma BranchLineLands(c: Cpu, lines: seq<Line>, start: u16, v: View, junk: u32)
    requires Assembles(lines) && Stands(c, lines, start, v) && IsJump(lines[v.line])
    ensures StepView(lines, v).line <= |lines|
    ensures Lands(Executed(c, junk), lines, start, StepView(lines, v))
  {
    hide Execute, Resolve, Holds, CodeOffset, Assembled;
    var j, l := v.line, lines[v.line];
    assert BranchFits(lines, j);
    hide Assembles;
    BranchLands(start, CodeOffset(lines, j + 1), CodeOffset(lines, l.to));
    var operand := OperandOf(lines, j);
    RelativeResolves(c.s, OpcodeOf(l).mne, operand, junk);
    var eff := Effective(SimpleAddress, Trunc32(c.s.r.pc + Signed8(operand)));
    match l
    case IfZero(to) =>
      ExecuteBeq(c.s, eff);
      BranchReaches(c.s, v, v.z, eff);
    case UnlessZero(to) =>
      ExecuteBne(c.s, eff);
      BranchReaches(c.s, v, !v.z, eff);
    case Always(to) =>
      ExecuteBra(c.s, eff);
      BranchReaches(c.s, v, true, eff);
  }

  /** Executing any line read ahead. */
  lemma LineLands(c: Cpu, lines: seq<Line>, start: u16, v: View, junk: u32)
    requires Assembles(lines) && Stands(c, lines, start, v)
    ensures StepView(lines, v).line <= |lines|
    ensures Lands(Executed(c, junk), lines, start, StepView(lines, v))
  {
    var l := lines[v.line];
    if IsJump(l) {
      hide Executed, Holds, Assembled, Assembles, CodeOffset;
      BranchLineLands(c, lines, start, v, junk);
    } else {
      OtherLineNext(lines, v);
      hide Executed, Holds, Assembled, Assembles, CodeOffset, StepView;
      if l.LoadA? {
        LoadALands(c, lines, start, v, junk, l.addr);
      } else if l.LoadAIndexed? {
        LoadAIndexedLands(c, lines, start, v, junk, l.addr);
      } else if l.StoreA? {
        StoreALands(c, lines, start, v, junk, l.addr);
      } else if l.CompareAWith? {
        CompareAWithLands(c, lines, start, v, junk, l.addr);
      } else {
        RegisterLineLands(c, lines, start, v, junk);
      }
    }
  }

  lemma OtherLineNext(lines: seq<Line>, v: View)
    requires v.line < |lines| && !IsJump(lines[v.line])
    ensures StepView(lines, v).line == v.line + 1
  {
  }

  /**
   The processor running the assembled bytes steps through the lines: from one line it reaches the
   line after it, or the one it branches to, with registers and memory as the line says.
   */
  lemma StepFollowsLines(c: Cpu, lines: seq<Line>, start: u16, v: View, junk: u32)
    requires Assembles(lines) && Stands(c, lines, start, v)
    requires StepView(lines, v).line < |lines| && Holds(StepView(lines, v).m, start, Code(lines))
    ensures Stands(Step(c, junk), lines, start, StepView(lines, v))
  {
    hide Executed, Prefetch, Holds, Assembled, Assembles, CodeOffset, StepView;
    LineLands(c, lines, start, v, junk);
    FetchesLine(Executed(c, junk), lines, start, StepView(lines, v));
  }
}
