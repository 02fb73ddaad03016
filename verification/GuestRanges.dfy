/**
 The guest programs against the assertions of the bus: along their runs every fetch and every access
 is in range, so the objects, whose methods require that, can make each of these steps.
 */
module GuestRanges {
  import opened Bytes
  import opened BusMemory
  import opened CpuRegisters
  import opened CpuMachine
  import opened Opcodes
  import opened AddressingModes
  import opened Instructions
  import opened CpuCore
  import opened Mnemonics
  import opened ProcessorModel
  import Assembly
  import GuestLoop
  import GuestUpload
  import GuestUploadTheorems
  import StackRefinement
  import Upload

  // ---- fetching

  lemma {:induction false} OperandPresent(m: Memory, start: u16, length: nat, k: nat, size: nat)
    requires Present(m, start, length) && k + size <= length
    ensures OperandInRange(m, Trunc16(start + k), size)
    decreases size
  {
    if size > 0 {
      hide InRange, Present;
      BytesPresent(m, start, length, k);
      NextByte(start, k);
      OperandPresent(m, start, length, k + 1, size - 1);
    }
  }

  /** An instruction within code that is there can be fetched. */
  lemma PrefetchPresent(s: Machine, start: u16, length: nat, k: nat)
    requires s.r.pbr == 0 && s.r.pc == Trunc16(start + k) && Present(s.m, start, length)
    requires k + 1 + Prefetch(s).cur.operandSize <= length
    ensures MayPrefetch(s)
  {
    hide InRange, Ops, OperandSize, OperandAt, BusMemory.Read, Present, OperandInRange;
    BytesPresent(s.m, start, length, k);
    OperandPresent(s.m, start, length, k + 1, Prefetch(s).cur.operandSize);
    NextByte(start, k);
  }

  lemma BytesPresent(m: Memory, start: u16, length: nat, k: nat)
    requires Present(m, start, length) && k < length
    ensures InRange(m, Trunc16(start + k))
  {
    hide InRange;
    assert BytePresent(m, start, k);
  }

  lemma NextByte(start: u16, k: nat)
    ensures Trunc16(Trunc16(start + k) + 1) == Trunc16(start + (k + 1))
  {
  }

  // ---- executing

  lemma MayLda(s: Machine, eff: Effective)
    requires MayFetch(s, eff, SizeOf(s.r.acc.len))
    ensures Proceeds(s, LDA, eff)
  {
    hide MayFetch;
  }

  lemma MaySta(s: Machine, eff: Effective)
    requires BytesInRange(s.m, eff.address, SizeOf(s.r.acc.len))
    ensures Proceeds(s, STA, eff)
  {
    hide BytesInRange;
  }

  lemma MayCmp(s: Machine, eff: Effective)
    requires MayFetch(s, eff, SizeOf(s.r.acc.len))
    ensures Proceeds(s, CMP, eff)
  {
    hide MayFetch;
  }

  lemma MaySbc(s: Machine, eff: Effective)
    requires MayFetch(s, eff, SizeOf(s.r.acc.len))
    ensures Proceeds(s, SBC, eff)
  {
    hide MayFetch;
  }

  lemma MayRol(s: Machine, eff: Effective)
    requires MayFetch(s, eff, SizeOf(s.r.acc.len))
    ensures Proceeds(s, ROL, eff)
  {
    hide MayFetch;
  }

  lemma MayLdx(s: Machine, w: u16)
    ensures Proceeds(s, LDX, Effective(ImmediateData, w))
  {
    hide MayCompute, MayModify, MayFlow, MayPushGroup, MayPullGroup, BytesInRange;
  }

  lemma MayCpx(s: Machine, w: u16)
    ensures Proceeds(s, CPX, Effective(ImmediateData, w))
  {
    hide MayLoadStore, MayModify, MayFlow, MayPushGroup, MayPullGroup, BytesInRange;
  }

  lemma MayInx(s: Machine, eff: Effective)
    ensures Proceeds(s, INX, eff)
  {
    hide MayCompute, MayLoadStore, MayModify, MayFlow, MayPushGroup, MayPullGroup;
  }

  lemma MayDex(s: Machine, eff: Effective)
    ensures Proceeds(s, DEX, eff)
  {
    hide MayCompute, MayLoadStore, MayModify, MayFlow, MayPushGroup, MayPullGroup;
  }

  lemma MayBeq(s: Machine, eff: Effective)
    ensures Proceeds(s, BEQ, eff)
  {
    hide MayCompute, MayLoadStore, MayModify, MayPush, MayPull, MayPushGroup, MayPullGroup;
  }

  lemma MayBne(s: Machine, eff: Effective)
    ensures Proceeds(s, BNE, eff)
  {
    hide MayCompute, MayLoadStore, MayModify, MayPush, MayPull, MayPushGroup, MayPullGroup;
  }

  lemma MayBra(s: Machine, eff: Effective)
    ensures Proceeds(s, BRA, eff)
  {
    hide MayCompute, MayLoadStore, MayModify, MayPush, MayPull, MayPushGroup, MayPullGroup;
  }

  // ---- assembled programs

  /** What a line reads or writes is there. */
  predicate LinePresent(lines: seq<Assembly.Line>, v: Assembly.View)
    requires v.line < |lines|
  {
    match lines[v.line]
    case LoadA(addr) => InRange(v.m, addr)
    case LoadAIndexed(addr) => InRange(v.m, addr + v.x)
    case StoreA(addr) => InRange(v.m, addr)
    case CompareAWith(addr) => InRange(v.m, addr)
    case _ => true
  }

  lemma LineMayExecute(c: Cpu, lines: seq<Assembly.Line>, start: u16, v: Assembly.View, junk: u32)
    requires Assembly.Stands(c, lines, start, v) && LinePresent(lines, v)
    ensures MayExecute(c, junk)
  {
    hide Proceeds, Resolve, Holds, InRange, Assembly.OperandOf, Assembly.CodeOffset, Assembly.Code;
    var l := lines[v.line];
    if l.LoadA? || l.LoadAIndexed? || l.StoreA? || l.CompareAWith? {
      AccessMayExecute(c, lines, start, v, junk);
    } else {
      OtherMayExecute(c, lines, start, v, junk);
    }
  }

  lemma AccessMayExecute(c: Cpu, lines: seq<Assembly.Line>, start: u16, v: Assembly.View, junk: u32)
    requires Assembly.Stands(c, lines, start, v) && LinePresent(lines, v)
    requires var l := lines[v.line]; l.LoadA? || l.LoadAIndexed? || l.StoreA? || l.CompareAWith?
    ensures MayExecute(c, junk)
  {
    hide Proceeds, Resolve, Holds, InRange, Assembly.CodeOffset, Assembly.Code;
    match lines[v.line]
    case LoadA(addr) =>
      AbsoluteResolves(c.s, LDA, addr, junk);
      MayLda(c.s, Effective(SimpleAddress, addr));
    case LoadAIndexed(addr) =>
      IndexedResolves(c.s, LDA, addr, junk);
      MayLda(c.s, Effective(SimpleAddress, addr + v.x));
    case StoreA(addr) =>
      AbsoluteResolves(c.s, STA, addr, junk);
      MaySta(c.s, Effective(SimpleAddress, addr));
    case CompareAWith(addr) =>
      AbsoluteResolves(c.s, CMP, addr, junk);
      MayCmp(c.s, Effective(SimpleAddress, addr));
  }

  lemma OtherMayExecute(c: Cpu, lines: seq<Assembly.Line>, start: u16, v: Assembly.View, junk: u32)
    requires Assembly.Stands(c, lines, start, v)
    requires var l := lines[v.line]; !l.LoadA? && !l.LoadAIndexed? && !l.StoreA? && !l.CompareAWith?
    ensures MayExecute(c, junk)
  {
    hide Proceeds, Resolve, Holds, InRange, Assembly.CodeOffset, Assembly.Code;
    var op := c.cur.opcode;
    var eff := Resolve(c.s, op.mne, op.mode, c.cur.operand, junk);
    match lines[v.line]
    case CompareA(b) =>
      ImmediateResolves(c.s, CMP, b, junk);
      MayCmp(c.s, eff);
    case LoadX(w) =>
      ImmediateResolves(c.s, LDX, w, junk);
      MayLdx(c.s, w);
    case CompareX(w) =>
      ImmediateResolves(c.s, CPX, w, junk);
      MayCpx(c.s, w);
    case IncrementX => MayInx(c.s, eff);
    case IfZero(_) => MayBeq(c.s, eff);
    case UnlessZero(_) => MayBne(c.s, eff);
    case Always(_) => MayBra(c.s, eff);
  }

  /** A machine at the beginning of a line can fetch it. */
  lemma LineMayPrefetch(s: Machine, lines: seq<Assembly.Line>, start: u16, v: Assembly.View)
    requires v.line < |lines| && Assembly.Shows(s, v) && s.r.pc == Assembly.LineStart(lines, start, v.line)
    requires Holds(v.m, start, Assembly.Code(lines)) && Present(v.m, start, |Assembly.Code(lines)|)
    ensures MayPrefetch(s)
  {
    hide Prefetch, Holds, Present, MayPrefetch, Assembly.OperandBytes, Assembly.OperandOf;
    Assembly.FetchesLine(s, lines, start, v);
    Assembly.LineWithin(lines, v.line, |lines|);
    PrefetchPresent(s, start, |Assembly.Code(lines)|, Assembly.CodeOffset(lines, v.line));
  }

  // ---- the upload program

  lemma PortsPresent(m: Memory)
    requires GuestUpload.FourPorts(m)
    ensures InRange(m, GuestUpload.PORT0) && InRange(m, GuestUpload.PORT1)
    ensures InRange(m, GuestUpload.PORT2) && InRange(m, GuestUpload.PORT3)
  {
    GuestUpload.PortCells();
    hide AddrDecoder.CellOf;
  }

  lemma TablePresent(m: Memory, base: u16, n: nat, k: nat, i: nat)
    requires Present(m, base, 4 * n) && base + 4 * n <= 0x1_0000 && k < n && i < 4
    ensures InRange(m, base + i + 4 * k)
  {
    hide InRange, Present, Trunc16;
    BytesPresent(m, base, 4 * n, i + 4 * k);
    InBank(base + i + 4 * k);
  }

  lemma InBank(addr: u16)
    ensures Trunc16(addr) == addr
  {
  }

  /** Every line of the program, where it stands, accesses the ports or the table. */
  lemma UploadLinePresent(g: GuestUpload.Setup, v: Assembly.View, s: Upload.Sys)
    requires g.Valid() && GuestUpload.Layout(g, v.m) && GuestUpload.Synchronised(g, v, s)
    ensures v.line < |g.lines| && LinePresent(g.lines, v)
  {
    hide InRange, Present, Upload.WellFormed, GuestUpload.TableIn, GuestUpload.CodeIn, GuestUpload.CookieOf;
    hide GuestUpload.PortsDone, Upload.Committed;
    PortsPresent(v.m);
    if v.line == 7 || v.line == 9 || v.line == 11 || v.line == 13 {
      TablePresent(v.m, g.base, |g.table|, s.sent,
                   if v.line == 7 then 1 else if v.line == 9 then 2 else if v.line == 11 then 3 else 0);
    }
  }

  /** A step from a state of a guest upload. */
  lemma UploadStepInRange(g: GuestUpload.Setup, w: GuestUpload.World, v: Assembly.View, s: Upload.Sys, junk: u32)
    requires g.Valid() && GuestUpload.Coupled(g, w, v, s)
    ensures MayExecute(w.cpu, junk) && MayPrefetch(Executed(w.cpu, junk))
  {
    GuestUpload.ProgramAssembles(g.base, |g.msgs|);
    hide MayExecute, MayPrefetch, Executed, Present, Holds, Assembly.StepView, Assembly.Assembled, Assembly.Assembles;
    hide Assembly.CodeOffset, Assembly.LineInstruction, GuestUpload.Synchronised, GuestUpload.TableIn;
    hide GuestUpload.Program, Upload.WellFormed, GuestUpload.Mirror, GuestUpload.SameButPorts;
    UploadLinePresent(g, v, s);
    LineMayExecute(w.cpu, g.lines, g.start, v, junk);
    GuestUpload.LineKeeps(g, v, s);
    var v' := Assembly.StepView(g.lines, v);
    GuestUpload.LayoutStays(g, v.m, v'.m);
    Assembly.LineLands(w.cpu, g.lines, g.start, v, junk);
    LineMayPrefetch(Executed(w.cpu, junk), g.lines, g.start, v');
  }

  /**
   In every interleaving of the guest upload the instruction read ahead can be executed, and the next
   one read, without any assertion of the bus failing: what an in-place turn of the loop asks for.
   */
  lemma UploadStaysInRange(g: GuestUpload.Setup, ram0: seq<u8>, run: seq<GuestUpload.World>, who: seq<Upload.Party>,
                           i: nat, junk: u32)
    requires g.Valid() && GuestUpload.IsWorldRun(run, who) && GuestUploadTheorems.WorldStart(g, ram0, run[0])
    requires i < |run|
    ensures MayExecute(run[i].cpu, junk) && MayPrefetch(Executed(run[i].cpu, junk))
  {
    hide GuestUpload.WorldMoves, GuestUploadTheorems.WorldStart, GuestUpload.Coupled, Upload.Inv;
    hide MayExecute, MayPrefetch, Executed, GuestUpload.Setup.Valid;
    var v, s := GuestUploadTheorems.WorldInv(g, ram0, run, who, i);
    UploadStepInRange(g, run[i], v, s, junk);
  }

  // ---- the loop that fills memory

  /** Fetching and executing the next instruction fails no assertion. */
  predicate TurnInRange(s: Machine, junk: u32) { MayPrefetch(s) && MayExecute(Prefetch(s), junk) }

  lemma StaMayExecute(c: Cpu, base: u16, junk: u32)
    requires c.cur == Instruction(0x9D, Opcode(STA, AbsoluteIndexedX), 2, base) && c.s.r.acc.len == Eight
    requires InRange(c.s.m, GuestLoop.BaseAddress(c.s.r, base) + c.s.r.x.Visible())
    ensures MayExecute(c, junk)
  {
    hide Resolve, Proceeds, InRange, Reg.Visible;
    IndexedResolves(c.s, STA, base, junk);
    MaySta(c.s, Effective(SimpleAddress, GuestLoop.BaseAddress(c.s.r, base) + c.s.r.x.Visible()));
  }

  lemma StaInRange(s: Machine, start: u16, base: u16, c: int, n: nat, todo: nat, junk: u32)
    requires GuestLoop.AtHead(s, start, base, c, n, todo)
    ensures TurnInRange(s, junk)
  {
    hide Holds, Prefetch, MayPrefetch, MayExecute, GuestLoop.Hits, Present, InRange, CodeOutside, GuestLoop.Code;
    assert GuestLoop.Hits(GuestLoop.BaseAddress(s.r, base), c, todo);
    TargetPresent(s.m, GuestLoop.BaseAddress(s.r, base), c, todo);
    GuestLoop.StaFetched(s, start, base);
    StartsThere(start);
    PrefetchPresent(s, start, 6, 0);
    StaMayExecute(Prefetch(s), base, junk);
  }

  lemma StartsThere(start: u16)
    ensures Trunc16(start + 0) == start
  {
  }

  lemma TargetPresent(m: Memory, addr: u32, c: int, i: int)
    requires GuestLoop.Hits(addr, c, i) && |m.wram| == AddrDecoder.WRAM_SIZE
    ensures InRange(m, addr + i)
  {
    hide AddrDecoder.CellOf;
  }

  lemma DexInRange(s: Machine, start: u16, base: u16, junk: u32)
    requires s.r.pbr == 0 && s.r.pc == Trunc16(start + 3) && Holds(s.m, start, GuestLoop.Code(base))
    requires Present(s.m, start, 6)
    ensures TurnInRange(s, junk)
  {
    hide Holds, Prefetch, MayPrefetch, Resolve, Proceeds, Present;
    GuestLoop.DexFetched(s, start, base);
    PrefetchPresent(s, start, 6, 3);
    MayDex(Prefetch(s).s, Resolve(Prefetch(s).s, DEX, Implied, 0, junk));
  }

  lemma BneInRange(s: Machine, start: u16, base: u16, junk: u32)
    requires s.r.pbr == 0 && s.r.pc == Trunc16(start + 4) && Holds(s.m, start, GuestLoop.Code(base))
    requires Present(s.m, start, 6)
    ensures TurnInRange(s, junk)
  {
    hide Holds, Prefetch, MayPrefetch, Resolve, Proceeds, Present;
    GuestLoop.BneFetched(s, start, base);
    PrefetchPresent(s, start, 6, 4);
    MayBne(Prefetch(s).s, Resolve(Prefetch(s).s, BNE, ProgramCounterRelative, 0xFA, junk));
  }

  lemma LoopTurnInRange(t: Machine, start: u16, base: u16, c: int, n: nat, todo: nat, r: nat, junks: seq<u32>)
    requires GuestLoop.AtHead(t, start, base, c, n, todo) && r < 3 && |junks| == 3
    ensures TurnInRange(Turns(t, junks[..r]), junks[r])
  {
    hide Turn, Holds, Present, TurnInRange, GuestLoop.Code, GuestLoop.TargetClear;
    StaInRange(t, start, base, c, n, todo, junks[0]);
    FirstTurns(t, junks);
    if r > 0 {
      LoopTurns(t, start, base, c, n, todo, junks);
      DexInRange(Turn(t, junks[0]), start, base, junks[1]);
      BneInRange(Turn(Turn(t, junks[0]), junks[1]), start, base, junks[2]);
    }
  }

  lemma FirstTurns(s: Machine, junks: seq<u32>)
    requires |junks| == 3
    ensures Turns(s, junks[..0]) == s && Turns(s, junks[..1]) == Turn(s, junks[0])
    ensures Turns(s, junks[..2]) == Turn(Turn(s, junks[0]), junks[1])
  {
    hide Turn;
    assert junks[..1] == [junks[0]] && junks[..2] == [junks[0], junks[1]];
    assert [junks[0]][1..] == [] && [junks[0], junks[1]][1..] == [junks[1]] && [junks[1]][1..] == [];
    assert Turns(Turn(s, junks[0]), [junks[1]]) == Turns(Turn(Turn(s, junks[0]), junks[1]), []);
  }

  /** Where the loop is after its first and second instruction. */
  lemma LoopTurns(t: Machine, start: u16, base: u16, c: int, n: nat, todo: nat, junks: seq<u32>)
    requires GuestLoop.AtHead(t, start, base, c, n, todo) && |junks| == 3
    ensures var t1 := Turn(t, junks[0]); var t2 := Turn(t1, junks[1]);
            && t1.r.pbr == 0 && t1.r.pc == Trunc16(start + 3) && Holds(t1.m, start, GuestLoop.Code(base))
            && t2.r.pbr == 0 && t2.r.pc == Trunc16(start + 4) && t2.m == t1.m && Present(t1.m, start, 6)
  {
    hide Turn, Holds, Present, GuestLoop.Code, CodeOutside, GuestLoop.TargetClear, Regs.SetX, AddrDecoder.CellOf;
    GuestLoop.ClearOfCode(GuestLoop.BaseAddress(t.r, base), c, n, start);
    GuestLoop.StaTurn(t, start, base, c, n, todo, junks[0]);
    var t1 := Turn(t, junks[0]);
    StoredCell(t, c, n, todo, t1.m);
    CodeHolds(t.m, t1.m, start, GuestLoop.Code(base), c + 1, c + n + 1);
    RangeStays(t.m, t1.m, start, 6);
    GuestLoop.DexTurn(t1, start, base, junks[1]);
    KeepsBank(t1.r.(pc := Trunc16(start + 4)));
  }

  lemma StoredCell(t: Machine, c: int, n: nat, todo: nat, m: Memory)
    requires 0 <= c + todo < |t.m.wram| && 0 < todo <= n && m == GuestLoop.PutByte(t.m, c + todo, t.r.acc.Low())
    ensures OnlyWramChanged(t.m, m, c + 1, c + n + 1) && SameShape(t.m, m)
  {
  }

  lemma KeepsBank(r: Regs)
    ensures GuestLoop.Decremented(r).pbr == r.pbr && GuestLoop.Decremented(r).pc == r.pc
  {
  }

  /** No step of the loop, to its last, fails an assertion. */
  lemma LoopStaysInRange(s: Machine, start: u16, base: u16, c: int, n: nat, junks: seq<u32>, i: nat)
    requires GuestLoop.AtHead(s, start, base, c, n, n) && |junks| == 3 * n && i < 3 * n
    ensures TurnInRange(Turns(s, junks[..i]), junks[i])
  {
    hide TurnInRange, GuestLoop.AtHead, GuestLoop.Filled, Turns;
    var k, r := i / 3, i % 3;
    var before, three := junks[..3 * k], junks[3 * k..3 * k + 3];
    GuestLoop.LoopProgress(s, start, base, c, n, k, before);
    LoopTurnInRange(Turns(s, before), start, base, c, n, n - k, r, three);
    TurnsConcat(s, before, three[..r]);
    assert junks[..i] == before + three[..r] && three[r] == junks[i];
  }

  // ---- calls

  lemma LowPageInRange(m: Memory, a: u32)
    requires |m.wram| == AddrDecoder.WRAM_SIZE && a < AddrDecoder.LOW_PAGE
    ensures InRange(m, a)
  {
    LowPageIsWram(a);
    hide AddrDecoder.CellOf;
  }

  lemma MayJsr(s: Machine, eff: Effective)
    requires MayPush(s, 2)
    ensures Proceeds(s, JSR, eff)
  {
    hide MayPush, MayPull, MayCompute, MayLoadStore, MayModify, MayPushGroup, MayPullGroup;
  }

  lemma MayRts(s: Machine, eff: Effective)
    requires MayPull(s, 2)
    ensures Proceeds(s, RTS, eff)
  {
    hide MayPush, MayPull, MayCompute, MayLoadStore, MayModify, MayPushGroup, MayPullGroup;
  }

  /** With the stack in the low page, a JSR whose target can be resolved fails no assertion, ... */
  lemma CallInRange(c: Cpu, junk: u32)
    requires StackRefinement.OnLowPage(c.s) && c.cur.opcode.mne == JSR && StackRefinement.Level(c.s.r.sp.value) >= 1
    requires AddressResolver.MayResolve(c.s, c.cur.opcode.mode, c.cur.operand)
    ensures MayExecute(c, junk)
  {
    hide Resolve, AddressResolver.MayResolve, InRange, Proceeds;
    LowPageInRange(c.s.m, c.s.r.sp.value);
    LowPageInRange(c.s.m, c.s.r.sp.value - 1);
    MayJsr(c.s, Resolve(c.s, JSR, c.cur.opcode.mode, c.cur.operand, junk));
  }

  /** ... nor does an RTS with its word in that page: the calls of a balanced tree are never what fails. */
  lemma ReturnInRange(c: Cpu, junk: u32)
    requires StackRefinement.OnLowPage(c.s) && c.cur.opcode == Opcode(RTS, StackRTS)
    requires StackRefinement.Level(c.s.r.sp.value) + 2 < AddrDecoder.LOW_PAGE
    ensures MayExecute(c, junk)
  {
    hide Resolve, InRange, Proceeds, BusMemory.Read;
    PulledInRange(c.s);
    MayRts(c.s, Resolve(c.s, RTS, StackRTS, c.cur.operand, junk));
  }

  lemma PulledInRange(s: Machine)
    requires StackRefinement.OnLowPage(s) && StackRefinement.Level(s.r.sp.value) + 2 < AddrDecoder.LOW_PAGE
    ensures MayPull(s, 2)
  {
    hide InRange, BusMemory.Read;
    var sp := s.r.sp.value;
    var next: u16 := if sp == 0xFFFF then 0 else sp + 1;
    PulledByte(s.m, sp);
    PulledByte(s.m, next);
    assert s.Pull().0 == s.WithRegs(s.r.(sp := s.r.sp.(value := next)));
    assert MayPull(s.Pull().0, 1) == (InRange(s.m, next + 1) && MayPull(s.Pull().0.Pull().0, 0));
  }

  /** The byte above the pointer, which for a pointer at 0xFFFF is read at 0x10000. */
  lemma PulledByte(m: Memory, sp: u16)
    requires |m.wram| == AddrDecoder.WRAM_SIZE && StackRefinement.Level(sp) + 1 < AddrDecoder.LOW_PAGE
    ensures InRange(m, sp + 1)
  {
    if sp < 0xFFFF {
      LowPageInRange(m, sp + 1);
    } else {
      assert AddrDecoder.CellOf(0x1_0000) == AddrDecoder.WramCell(0);
    }
  }
}
