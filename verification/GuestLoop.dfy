/** A guest program, from its bytes: STA base,X / DEX / BNE fills memory and stops. */
module GuestLoop {
  import opened Bytes
  import opened AddrDecoder
  import opened BusMemory
  import opened CpuRegisters
  import opened CpuMachine
  import opened Opcodes
  import opened AddressingModes
  import opened Instructions
  import opened CpuCore

  /** 9D lo hi: STA base,X; CA: DEX; D0 FA: BNE back to the STA. */
  function Code(base: u16): (code: seq<u8>)
    ensures |code| == 6
  {
    [0x9D, Low(base), High(base), 0xCA, 0xD0, 0xFA]
  }

  /** The i-th address from the base is WRAM cell c + i. */
  predicate Hits(addr: int, c: int, i: int) {
    0 <= addr + i < 0x1_0000_0000 && 0 <= c + i < WRAM_SIZE && CellOf(addr + i) == WramCell(c + i)
  }

  function BaseAddress(r: Regs, base: u16): u32 { r.DataBank() + base }

  /** The bytes 1 to n behind the base are in WRAM, from cell c + 1 on, and the code is not among them. */
  predicate TargetClear(addr: int, c: int, n: nat, start: u16) {
    && (forall i :: 1 <= i <= n ==> Hits(addr, c, i))
    && CodeOutside(start, 6, c + 1, c + n + 1)
  }

  /** At the head of the loop: the code at `start` in bank 0, A 8 bits long, `todo` the index. */
  predicate AtHead(s: Machine, start: u16, base: u16, c: int, n: nat, todo: nat) {
    && s.r.pbr == 0 && s.r.pc == start && Holds(s.m, start, Code(base)) && Present(s.m, start, 6)
    && s.r.acc.len == Eight && |s.m.wram| == WRAM_SIZE
    && 0 < todo <= n && s.r.x.Visible() == todo
    && TargetClear(BaseAddress(s.r, base), c, n, start)
  }

  /** The memory with a byte put in one WRAM cell. */
  function PutByte(m: Memory, i: nat, v: u8): Memory
    requires i < |m.wram|
  {
    m.(wram := m.wram[i := v])
  }

  lemma OpcodesUsed()
    ensures Ops(0x9D) == Opcode(STA, AbsoluteIndexedX)
    ensures Ops(0xCA) == Opcode(DEX, Implied)
    ensures Ops(0xD0) == Opcode(BNE, ProgramCounterRelative)
  {
  }

  lemma StaFetched(s: Machine, start: u16, base: u16)
    requires s.r.pbr == 0 && s.r.pc == start && Holds(s.m, start, Code(base))
    ensures Prefetch(s).cur == Instruction(0x9D, Opcode(STA, AbsoluteIndexedX), 2, base)
    ensures Prefetch(s).s == s.WithRegs(s.r.(pc := Trunc16(start + 3)))
  {
    hide Holds, Prefetch, Ops, BusMemory.Read;
    SmallOperands(base, 0xFA);
    OpcodesUsed();
    assert Code(base)[0..3] == [0x9D] + LittleEndian(base, 2);
    FetchWithin(s, start, Code(base), 0, 0x9D, base);
  }

  lemma DexFetched(s: Machine, start: u16, base: u16)
    requires s.r.pbr == 0 && s.r.pc == Trunc16(start + 3) && Holds(s.m, start, Code(base))
    ensures Prefetch(s).cur == Instruction(0xCA, Opcode(DEX, Implied), 0, 0)
    ensures Prefetch(s).s == s.WithRegs(s.r.(pc := Trunc16(start + 4)))
  {
    hide Holds, Prefetch, Ops, BusMemory.Read;
    SmallOperands(base, 0xFA);
    OpcodesUsed();
    assert Code(base)[3..4] == [0xCA] + LittleEndian(0, 0);
    FetchWithin(s, start, Code(base), 3, 0xCA, 0);
  }

  lemma BneFetched(s: Machine, start: u16, base: u16)
    requires s.r.pbr == 0 && s.r.pc == Trunc16(start + 4) && Holds(s.m, start, Code(base))
    ensures Prefetch(s).cur == Instruction(0xD0, Opcode(BNE, ProgramCounterRelative), 1, 0xFA)
    ensures Prefetch(s).s == s.WithRegs(s.r.(pc := Trunc16(start + 6)))
  {
    hide Holds, Prefetch, Ops, BusMemory.Read;
    SmallOperands(base, 0xFA);
    OpcodesUsed();
    assert Code(base)[4..6] == [0xD0] + LittleEndian(0xFA, 1);
    FetchWithin(s, start, Code(base), 4, 0xD0, 0xFA);
  }

  /** The STA: one byte behind the base, at the index. */
  lemma StaTurn(s: Machine, start: u16, base: u16, c: int, n: nat, todo: nat, junk: u32)
    requires AtHead(s, start, base, c, n, todo)
    ensures Hits(BaseAddress(s.r, base), c, todo)
    ensures Turn(s, junk) == Machine(s.r.(pc := Trunc16(start + 3)), PutByte(s.m, c + todo, s.r.acc.Low()))
  {
    hide Execute, Resolve, Holds, CellOf, Prefetch, Ops;
    StaFetched(s, start, base);
    var c1 := Prefetch(s);
    IndexedResolves(c1.s, STA, base, junk);
    var eff := Effective(SimpleAddress, BaseAddress(s.r, base) + todo);
    ExecuteSta(c1.s, eff);
    assert Hits(BaseAddress(s.r, base), c, todo);
  }

  /** Registers after one decrement of X, at either width. */
  function Decremented(r: Regs): Regs { r.SetX(Trunc16(r.x.value - 1)) }

  lemma DexTurn(s: Machine, start: u16, base: u16, junk: u32)
    requires s.r.pbr == 0 && s.r.pc == Trunc16(start + 3) && Holds(s.m, start, Code(base))
    ensures Turn(s, junk) == s.WithRegs(Decremented(s.r.(pc := Trunc16(start + 4))))
  {
    hide Execute, Resolve, Holds, CellOf, Prefetch, Ops, Regs.SetX;
    DexFetched(s, start, base);
    var c1 := Prefetch(s);
    ExecuteDex(c1.s, Resolve(c1.s, DEX, Implied, 0, junk));
  }

  lemma BneTurn(s: Machine, start: u16, base: u16, junk: u32)
    requires s.r.pbr == 0 && s.r.pc == Trunc16(start + 4) && Holds(s.m, start, Code(base))
    ensures Turn(s, junk) == s.WithRegs(s.r.(pc := if s.r.p.z then Trunc16(start + 6) else start))
  {
    hide Execute, Resolve, Holds, Prefetch, Ops, Code;
    BneFetched(s, start, base);
    var c1 := Prefetch(s);
    RelativeResolves(c1.s, BNE, 0xFA, junk);
    ExecuteBne(c1.s, Resolve(c1.s, BNE, ProgramCounterRelative, 0xFA, junk));
  }

  lemma DecrementedIndex(r: Regs)
    requires r.x.Visible() > 0
    ensures var t := Decremented(r);
            && t == r.(x := r.x.(value := r.x.value - 1), p := t.p)
            && t.x.Visible() == r.x.Visible() - 1
            && t.p == r.p.(z := t.x.Visible() == 0, n := t.p.n)
            && (t.x.Visible() == 0 ==> !t.p.n)
  {
    if r.x.len == Eight {
      LowOfPredecessor(r.x.value);
      hide Low;
    }
  }

  lemma LowOfPredecessor(v: u16)
    requires Low(v) > 0
    ensures Trunc16(v - 1) == v - 1 && Low(v - 1) == Low(v) - 1
  {
  }

  /** What `done` turns of the loop leave behind, out of n. */
  predicate Filled(s: Machine, t: Machine, start: u16, c: int, n: nat, done: nat)
    requires |s.m.wram| == WRAM_SIZE
  {
    && t.m == s.m.(wram := t.m.wram) && |t.m.wram| == WRAM_SIZE
    && (forall i :: 0 <= i < WRAM_SIZE ==>
          t.m.wram[i] == if c + n - done < i <= c + n then s.r.acc.Low() else s.m.wram[i])
    && s.r.x.value >= done && t.r.x.Visible() == n - done
    && t.r == s.r.(x := s.r.x.(value := s.r.x.value - done), p := t.r.p,
                   pc := if done < n then start else Trunc16(start + 6))
    && t.r.p == s.r.p.(z := t.r.p.z, n := t.r.p.n)
    && (done == n ==> t.r.p.z && !t.r.p.n)
  }

  lemma ClearOfCode(addr: int, c: int, n: nat, start: u16)
    requires TargetClear(addr, c, n, start)
    ensures CodeOutside(start, 6, c + 1, c + n + 1)
  {
  }

  /** STA, DEX, BNE: one more byte filled, and back at the head unless the index ran out. */
  lemma Iteration(s: Machine, t: Machine, start: u16, base: u16, c: int, n: nat, done: nat, junks: seq<u32>)
    requires AtHead(s, start, base, c, n, n) && done < n && |junks| == 3
    requires Filled(s, t, start, c, n, done) && AtHead(t, start, base, c, n, n - done)
    ensures var u := Turns(t, junks);
            Filled(s, u, start, c, n, done + 1) && (done + 1 < n ==> AtHead(u, start, base, c, n, n - done - 1))
  {
    hide Turn, Code, TargetClear, Holds, Reg.Visible, Reg.Low, Decremented, CodeOutside, Present;
    ClearOfCode(BaseAddress(s.r, base), c, n, start);
    StaTurn(t, start, base, c, n, n - done, junks[0]);
    var t1 := Turn(t, junks[0]);
    RangeStays(t.m, t1.m, start, 6);
    CodeHolds(s.m, t1.m, start, Code(base), c + 1, c + n + 1);
    DexTurn(t1, start, base, junks[1]);
    var t2 := Turn(t1, junks[1]);
    DecrementedIndex(t1.r.(pc := Trunc16(start + 4)));
    BneTurn(t2, start, base, junks[2]);
    assert Turns(t, junks) == Turns(t1, junks[1..]) == Turns(t2, junks[1..][1..]);
    assert junks[1..][1..] == [junks[2]] && Turns(t2, [junks[2]]) == Turn(t2, junks[2]);
  }

  /** After every iteration: exactly the bytes from the top down to the index are filled. */
  lemma {:induction false} LoopProgress(s: Machine, start: u16, base: u16, c: int, n: nat, done: nat, junks: seq<u32>)
    requires AtHead(s, start, base, c, n, n) && done <= n && |junks| == 3 * done
    ensures var t := Turns(s, junks);
            Filled(s, t, start, c, n, done) && (done < n ==> AtHead(t, start, base, c, n, n - done))
    decreases done
  {
    hide Turn;
    if done > 0 {
      hide AtHead;
      var before, last := junks[..|junks| - 3], junks[|junks| - 3..];
      LoopProgress(s, start, base, c, n, done - 1, before);
      TurnsConcat(s, before, last);
      assert junks == before + last;
      Iteration(s, Turns(s, before), start, base, c, n, done - 1, last);
    }
  }

  /**
   The loop `STA base,X / DEX / BNE` started with X = n > 0 and A 8 bits long stores A in the n bytes
   behind the base, changes no other memory, and leaves through the BNE after exactly n iterations.
   */
  lemma LoopFills(s: Machine, start: u16, base: u16, c: int, n: nat, junks: seq<u32>)
    requires AtHead(s, start, base, c, n, n) && |junks| == 3 * n
    ensures Run(Prefetch(s), junks) == Prefetch(Turns(s, junks)) && Filled(s, Turns(s, junks), start, c, n, n)
    ensures forall j :: 0 <= j < n ==> Turns(s, junks[..3 * j]).r.pc == start
  {
    hide Turn, AtHead;
    RunIsTurns(s, junks);
    LoopProgress(s, start, base, c, n, n, junks);
    forall j | 0 <= j < n
      ensures Turns(s, junks[..3 * j]).r.pc == start
    {
      LoopProgress(s, start, base, c, n, j, junks[..3 * j]);
    }
  }

  /** The program written through the bus into the low page of bank 0, its target beside it there, is ready to run. */
  lemma LoadedInLowPage(s: Machine, start: u16, base: u16, n: nat)
    requires s.r.pbr == 0 && s.r.dbr == 0 && s.r.pc == start && s.r.acc.len == Eight && |s.m.wram| == WRAM_SIZE
    requires 0 < n == s.r.x.Visible()
    requires start + 6 <= LOW_PAGE && base + n < LOW_PAGE && (start + 5 <= base || base + n < start)
    ensures AtHead(Machine(s.r, WriteBytes(s.m, start, Code(base))), start, base, base, n, n)
  {
    hide Code, Holds, CellOf, WriteBytes, BusMemory.Write, BusMemory.Read;
    EncodeHolds(s.m, start, Code(base));
    LowPagePresent(WriteBytes(s.m, start, Code(base)), start, 6);
    forall i | 1 <= i <= n
      ensures Hits(base, base, i)
    {
      LowPageIsWram(base + i);
    }
    var low, high := base + 1, base + n + 1;
    forall k | 0 <= k < 6
      ensures ByteOutside(start, k, low, high)
    {
      LowPageIsWram(start + k);
    }
  }
}
