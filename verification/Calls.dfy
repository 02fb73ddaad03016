/** Nested subroutine calls: JSR and RTS bracket any body that keeps the stack in order. */
module Calls {
  import opened Bytes
  import opened AddrDecoder
  import opened CpuMachine
  import opened Opcodes
  import opened AddressingModes
  import opened Instructions
  import opened CpuCore
  import opened StackRefinement

  /** A subroutine as it is executed: ordinary instructions and calls, then the RTS. */
  datatype Body =
    | Return(junk: u32)
    | Plain(junk: u32, next: Body)
    | Call(junk: u32, callee: Body, next: Body)

  /** The machine after the body's RTS has executed, before the next instruction is read. */
  function Final(b: Body, c: Cpu): Machine
    decreases b
  {
    match b
    case Return(junk) => Executed(c, junk)
    case Plain(junk, next) => Final(next, Step(c, junk))
    case Call(junk, callee, next) => Final(next, Prefetch(Final(callee, Step(c, junk))))
  }

  /** The instructions of a body in the order they run. */
  function Trace(b: Body): seq<u32> {
    match b
    case Return(junk) => [junk]
    case Plain(junk, next) => [junk] + Trace(next)
    case Call(junk, callee, next) => [junk] + Trace(callee) + Trace(next)
  }

  /** The tree is a run of the processor, cut at the calls and returns. */
  lemma {:induction false} BodyIsRun(b: Body, c: Cpu)
    ensures Run(c, Trace(b)) == Prefetch(Final(b, c))
    decreases b
  {
    hide Prefetch, Executed;
    match b {
      case Return(junk) =>
        assert Run(c, [junk]) == Step(c, junk);
      case Plain(junk, next) =>
        BodyIsRun(next, Step(c, junk));
      case Call(junk, callee, next) =>
        BodyIsRun(callee, Step(c, junk));
        BodyIsRun(next, Prefetch(Final(callee, Step(c, junk))));
        RunConcat(Step(c, junk), Trace(callee), Trace(next));
        assert ([junk] + Trace(callee) + Trace(next))[1..] == Trace(callee) + Trace(next);
    }
  }

  /** The stack stays in the low page, at or below level `entry`, and nothing above that level changes. */
  predicate Keeps(s: Machine, t: Machine, entry: int) {
    && OnLowPage(s) && OnLowPage(t) && -1 <= entry < LOW_PAGE
    && Level(t.r.sp.value) <= entry && SameAbove(s, t, entry)
  }

  /**
   A body entered with the pointer at level `entry`: its own instructions leave alone what lies above
   `entry`, and the pointer is back there at the RTS. What it pushes below `entry` is its own affair.
   */
  predicate Balanced(b: Body, c: Cpu, entry: int)
    decreases b
  {
    match b
    case Return(_) => c.cur.opcode.mne == RTS && Level(c.s.r.sp.value) == entry
    case Plain(junk, next) => Keeps(c.s, Step(c, junk).s, entry) && Balanced(next, Step(c, junk), entry)
    case Call(junk, callee, next) =>
      && c.cur.opcode.mne == JSR && 1 <= Level(c.s.r.sp.value)
      && Balanced(callee, Step(c, junk), Level(c.s.r.sp.value) - 2)
      && Balanced(next, Prefetch(Final(callee, Step(c, junk))), entry)
  }

  /** The JSR: the address of its last byte is stacked, and nothing above the pointer changes. */
  lemma JsrStep(c: Cpu, junk: u32)
    requires OnLowPage(c.s) && c.cur.opcode.mne == JSR && Level(c.s.r.sp.value) >= 1
    ensures var l, t := Level(c.s.r.sp.value), Step(c, junk).s;
            && OnLowPage(t) && Level(t.r.sp.value) == l - 2 && SameAbove(c.s, t, l)
            && Word(t.m.wram[l - 1], t.m.wram[l]) == Trunc16(c.s.r.pc - 1)
            && t.r.pbr == c.s.r.pbr
  {
    hide Execute, Resolve, BusMemory.Read, BusMemory.Write, Prefetch, Machine.PushWord;
    var s, op := c.s, c.cur.opcode;
    ExecuteJsr(s, Resolve(s, op.mne, op.mode, c.cur.operand, junk));
    PushWordCells(s, Trunc16(s.r.pc - 1));
    PrefetchKeepsRegisters(Executed(c, junk));
  }

  /** The RTS: to the byte after the stacked address. */
  lemma RtsExecuted(c: Cpu, junk: u32)
    requires OnLowPage(c.s) && c.cur.opcode.mne == RTS && Level(c.s.r.sp.value) + 2 < LOW_PAGE
    ensures var l, t := Level(c.s.r.sp.value), Executed(c, junk);
            && OnLowPage(t) && Level(t.r.sp.value) == l + 2 && t.m == c.s.m
            && t.r.pc == Trunc16(Word(c.s.m.wram[l + 1], c.s.m.wram[l + 2]) + 1)
            && t.r.pbr == c.s.r.pbr
  {
    hide Execute, Resolve, BusMemory.Read, BusMemory.Write, Prefetch, Machine.PullWord;
    var s, op := c.s, c.cur.opcode;
    ExecuteRts(s, Resolve(s, op.mne, op.mode, c.cur.operand, junk));
    PullWordCells(s);
  }

  lemma PrefetchKeepsStack(s: Machine)
    ensures OnLowPage(Prefetch(s).s) == OnLowPage(s) && Prefetch(s).s.m == s.m && Prefetch(s).s.r.sp == s.r.sp
    ensures Prefetch(s).s.r.pbr == s.r.pbr
  {
    hide Prefetch;
    PrefetchKeepsRegisters(s);
  }

  /** The word above `entry` is where the body returns to; that word and all above it are as they were. */
  predicate ReturnsThrough(s: Machine, t: Machine, entry: int)
    requires OnLowPage(s) && -1 <= entry && entry + 2 < LOW_PAGE
  {
    && OnLowPage(t) && Level(t.r.sp.value) == entry + 2 && SameAbove(s, t, entry)
    && t.r.pc == Trunc16(Word(s.m.wram[entry + 1], s.m.wram[entry + 2]) + 1)
  }

  lemma ThroughLater(s: Machine, s': Machine, t: Machine, entry: int)
    requires OnLowPage(s) && OnLowPage(s') && -1 <= entry && entry + 2 < LOW_PAGE
    requires SameAbove(s, s', entry) && ReturnsThrough(s', t, entry)
    ensures ReturnsThrough(s, t, entry)
  {
  }

  lemma {:induction false} BalancedReturns(b: Body, c: Cpu, entry: int)
    requires OnLowPage(c.s) && -1 <= entry && Level(c.s.r.sp.value) <= entry && entry + 2 < LOW_PAGE
    requires Balanced(b, c, entry)
    ensures ReturnsThrough(c.s, Final(b, c), entry)
    decreases b, 0
  {
    hide Step, Executed, Prefetch, SameAbove, ReturnsThrough, OnLowPage, Level;
    match b {
      case Return(junk) =>
        RtsReturns(c, junk, entry);
      case Plain(junk, next) =>
        BalancedReturns(next, Step(c, junk), entry);
        ThroughLater(c.s, Step(c, junk).s, Final(b, c), entry);
      case Call(junk, callee, next) =>
        var d := Prefetch(Final(callee, Step(c, junk)));
        CallReturns(c, junk, callee);
        SameAboveHigher(c.s, d.s, Level(c.s.r.sp.value), entry);
        BalancedReturns(next, d, entry);
        ThroughLater(c.s, d.s, Final(b, c), entry);
    }
  }

  lemma RtsReturns(c: Cpu, junk: u32, entry: int)
    requires OnLowPage(c.s) && c.cur.opcode.mne == RTS && Level(c.s.r.sp.value) == entry && entry + 2 < LOW_PAGE
    ensures ReturnsThrough(c.s, Executed(c, junk), entry)
  {
    hide Executed;
    RtsExecuted(c, junk);
  }

  lemma SameAboveHigher(s: Machine, t: Machine, level: int, higher: int)
    requires OnLowPage(s) && OnLowPage(t) && -1 <= level <= higher < LOW_PAGE && SameAbove(s, t, level)
    ensures SameAbove(s, t, higher)
  {
  }

  /** After the call: the pointer restored, every caller byte intact, and execution at the byte after the JSR. */
  predicate BackFromCall(c: Cpu, t: Machine) {
    && OnLowPage(c.s) && OnLowPage(t)
    && t.r.sp == c.s.r.sp && SameAbove(c.s, t, Level(c.s.r.sp.value)) && t.r.pc == c.s.r.pc
  }

  lemma {:induction false} CallReturns(c: Cpu, junk: u32, callee: Body)
    requires OnLowPage(c.s) && c.cur.opcode.mne == JSR && 1 <= Level(c.s.r.sp.value)
    requires Balanced(callee, Step(c, junk), Level(c.s.r.sp.value) - 2)
    ensures BackFromCall(c, Final(callee, Step(c, junk)))
    ensures OnLowPage(Prefetch(Final(callee, Step(c, junk))).s)
    ensures BackFromCallSteps(c, Prefetch(Final(callee, Step(c, junk))))
    decreases callee, 1
  {
    hide Step, Executed, Prefetch;
    var l, t := Level(c.s.r.sp.value), Final(callee, Step(c, junk));
    JsrStep(c, junk);
    BalancedReturns(callee, Step(c, junk), l - 2);
    PrefetchKeepsStack(t);
    assert Trunc16(Trunc16(c.s.r.pc - 1) + 1) == c.s.r.pc;
  }

  /** The same of the processor that has read the next instruction. */
  predicate BackFromCallSteps(c: Cpu, d: Cpu) {
    OnLowPage(c.s) && OnLowPage(d.s) && d.s.r.sp == c.s.r.sp && SameAbove(c.s, d.s, Level(c.s.r.sp.value))
  }

  /** Every call in the tree returns. */
  predicate EveryCallReturns(b: Body, c: Cpu)
    decreases b
  {
    match b
    case Return(_) => true
    case Plain(junk, next) => EveryCallReturns(next, Step(c, junk))
    case Call(junk, callee, next) =>
      && BackFromCall(c, Final(callee, Step(c, junk)))
      && EveryCallReturns(callee, Step(c, junk))
      && EveryCallReturns(next, Prefetch(Final(callee, Step(c, junk))))
  }

  /** In a balanced tree of calls every JSR is returned from, to the byte after it, with the caller's stack intact. */
  lemma {:induction false} NestedCallsReturn(b: Body, c: Cpu, entry: int)
    requires OnLowPage(c.s) && -1 <= entry && Level(c.s.r.sp.value) <= entry < LOW_PAGE
    requires Balanced(b, c, entry)
    ensures EveryCallReturns(b, c)
    decreases b
  {
    hide Step, Executed, Prefetch;
    match b {
      case Return(junk) =>
      case Plain(junk, next) =>
        NestedCallsReturn(next, Step(c, junk), entry);
      case Call(junk, callee, next) =>
        JsrStep(c, junk);
        NestedCallsReturn(callee, Step(c, junk), Level(c.s.r.sp.value) - 2);
        CallReturns(c, junk, callee);
        NestedCallsReturn(next, Prefetch(Final(callee, Step(c, junk))), entry);
    }
  }

  /** The body's own instructions stay in one program bank. */
  predicate OneBank(b: Body, c: Cpu)
    decreases b
  {
    match b
    case Return(_) => true
    case Plain(junk, next) => Step(c, junk).s.r.pbr == c.s.r.pbr && OneBank(next, Step(c, junk))
    case Call(junk, callee, next) =>
      OneBank(callee, Step(c, junk)) && OneBank(next, Prefetch(Final(callee, Step(c, junk))))
  }

  /** Then the byte after the JSR is meant in full: the program bank is what it was at the call as well. */
  lemma {:induction false} BankReturns(b: Body, c: Cpu, entry: int)
    requires OnLowPage(c.s) && -1 <= entry && Level(c.s.r.sp.value) <= entry && entry + 2 < LOW_PAGE
    requires Balanced(b, c, entry) && OneBank(b, c)
    ensures Final(b, c).r.pbr == c.s.r.pbr
    decreases b
  {
    hide Step, Executed, Prefetch, SameAbove, OnLowPage, Level;
    match b {
      case Return(junk) =>
        hide Balanced;
        RtsExecuted(c, junk);
      case Plain(junk, next) =>
        BankReturns(next, Step(c, junk), entry);
      case Call(junk, callee, next) =>
        var d := Step(c, junk);
        var back := Final(callee, d);
        JsrStep(c, junk);
        CallReturns(c, junk, callee);
        BankReturns(callee, d, Level(c.s.r.sp.value) - 2);
        PrefetchKeepsStack(back);
        BankReturns(next, Prefetch(back), entry);
    }
  }
}
