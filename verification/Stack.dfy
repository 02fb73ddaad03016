/** The stack: bytes of the low 8 KiB of WRAM below the stack pointer's starting point. */
module StackRefinement {
  import opened Bytes
  import opened AddrDecoder
  import opened BusMemory
  import opened CpuRegisters
  import opened CpuMachine
  import opened Opcodes
  import opened Instructions
  import opened AddressingModes

  /** The stack pointer as a number that may have been pushed below 0. */
  function Level(sp: u16): int { if sp == 0xFFFF then -1 else sp }

  /** The stack pointer is 16 bits long and within, or just below, the low page. */
  predicate OnLowPage(s: Machine) {
    s.r.sp.len == Sixteen && Level(s.r.sp.value) < LOW_PAGE && |s.m.wram| == WRAM_SIZE
  }

  /** The bytes stacked above the pointer up to level `base`, the top of the stack first. */
  function Stacked(s: Machine, base: int): (r: seq<u8>)
    requires OnLowPage(s) && Level(s.r.sp.value) <= base < LOW_PAGE
    ensures |r| == base - Level(s.r.sp.value)
  {
    s.m.wram[Level(s.r.sp.value) + 1..base + 1]
  }

  /** Everything but WRAM is the same. */
  predicate OnlyWram(m: Memory, m': Memory) { m' == m.(wram := m'.wram) && |m'.wram| == |m.wram| }

  lemma LowPageCell(addr: u32)
    requires addr < LOW_PAGE || addr == 0x1_0000
    ensures CellOf(addr) == WramCell(addr % 0x1_0000)
  {
  }

  lemma PushCell(s: Machine, v: u8)
    requires OnLowPage(s) && Level(s.r.sp.value) >= 0
    ensures var t := s.Push(v); var l := Level(s.r.sp.value);
            OnLowPage(t) && Level(t.r.sp.value) == l - 1
            && t.m == s.m.(wram := s.m.wram[l := v]) && t.r == s.r.(sp := Reg(Sixteen, t.r.sp.value))
  {
    LowPageCell(s.r.sp.value);
  }

  lemma PullCell(s: Machine)
    requires OnLowPage(s) && Level(s.r.sp.value) + 1 < LOW_PAGE
    ensures var (t, v) := s.Pull(); var l := Level(s.r.sp.value);
            OnLowPage(t) && Level(t.r.sp.value) == l + 1
            && t.m == s.m && v == s.m.wram[l + 1] && t.r == s.r.(sp := Reg(Sixteen, t.r.sp.value))
  {
    LowPageCell(s.r.sp.value + 1);
  }

  // ---- mixes of pushes and pulls

  datatype StackOp = PushOp(v: u8) | PullOp

  /** The machine after the operations, and the bytes pulled. */
  function RunOps(s: Machine, ops: seq<StackOp>): (Machine, seq<u8>)
    decreases |ops|
  {
    if ops == [] then (s, []) else
    match ops[0]
    case PushOp(v) => RunOps(s.Push(v), ops[1..])
    case PullOp =>
      var (t, v) := s.Pull();
      var (u, out) := RunOps(t, ops[1..]);
      (u, [v] + out)
  }

  /** The same operations on a sequence of bounded depth; None on underflow or overflow. */
  function RunSeq(st: seq<u8>, depth: nat, ops: seq<StackOp>): Option<(seq<u8>, seq<u8>)>
    decreases |ops|
  {
    if ops == [] then Some((st, [])) else
    match ops[0]
    case PushOp(v) => if |st| >= depth then None else RunSeq([v] + st, depth, ops[1..])
    case PullOp =>
      if st == [] then None else
      match RunSeq(st[1..], depth, ops[1..])
      case None => None
      case Some(res) => Some((res.0, [st[0]] + res.1))
  }

  /** The run from `s` to `t` agrees with the sequence run from `s`'s stacked bytes to `st`. */
  predicate Refines(s: Machine, base: int, t: Machine, st: seq<u8>) {
    && OnLowPage(s) && OnLowPage(t) && -1 <= Level(t.r.sp.value) <= base < LOW_PAGE
    && Stacked(t, base) == st
    && OnlyWram(s.m, t.m) && t.m.wram[base + 1..] == s.m.wram[base + 1..]
    && t.r == s.r.(sp := Reg(Sixteen, t.r.sp.value))
  }

  lemma RefinesTrans(s: Machine, base: int, t: Machine, st: seq<u8>, u: Machine, su: seq<u8>)
    requires Refines(s, base, t, st) && Refines(t, base, u, su)
    ensures Refines(s, base, u, su)
  {
  }

  /**
   The stack refines a sequence: pushes and pulls that keep the depth between 0 and base + 1 give
   the bytes a last-in first-out sequence gives, and touch nothing above `base`.
   */
  lemma {:induction false} StackIsLifo(s: Machine, base: int, ops: seq<StackOp>)
    requires OnLowPage(s) && Level(s.r.sp.value) <= base < LOW_PAGE
    requires RunSeq(Stacked(s, base), base + 1, ops).Some?
    ensures var (t, out) := RunOps(s, ops); var (st, expected) := RunSeq(Stacked(s, base), base + 1, ops).value;
            Refines(s, base, t, st) && out == expected
    decreases |ops|
  {
    hide BusMemory.Read, BusMemory.Write;
    if ops != [] {
      var st, rest := Stacked(s, base), ops[1..];
      match ops[0]
      case PushOp(v) =>
        var t := s.Push(v);
        PushStacked(s, base, v);
        StackIsLifo(t, base, rest);
        RefinesTrans(s, base, t, [v] + st, RunOps(t, rest).0, RunSeq([v] + st, base + 1, rest).value.0);
      case PullOp =>
        var t := s.Pull().0;
        PullStacked(s, base);
        StackIsLifo(t, base, rest);
        RefinesTrans(s, base, t, st[1..], RunOps(t, rest).0, RunSeq(st[1..], base + 1, rest).value.0);
    }
  }

  lemma PushStacked(s: Machine, base: int, v: u8)
    requires OnLowPage(s) && 0 <= Level(s.r.sp.value) <= base < LOW_PAGE
    ensures Refines(s, base, s.Push(v), [v] + Stacked(s, base))
  {
    PushCell(s, v);
  }

  lemma PullStacked(s: Machine, base: int)
    requires OnLowPage(s) && Level(s.r.sp.value) < base < LOW_PAGE
    ensures var (t, v) := s.Pull();
            v == Stacked(s, base)[0] && Refines(s, base, t, Stacked(s, base)[1..])
  {
    PullCell(s);
  }

  // ---- push and pull instructions

  /** Nothing between the pointer's level and the end of the low page has changed from `s` to `t`. */
  predicate SameAbove(s: Machine, t: Machine, level: int)
    requires OnLowPage(s) && OnLowPage(t) && -1 <= level < LOW_PAGE
  {
    forall i :: level < i < LOW_PAGE ==> s.m.wram[i] == t.m.wram[i]
  }

  lemma PushWordCells(s: Machine, v: u16)
    requires OnLowPage(s) && Level(s.r.sp.value) >= 1
    ensures var t := s.PushWord(v); var l := Level(s.r.sp.value);
            OnLowPage(t) && Level(t.r.sp.value) == l - 2
            && t.m == s.m.(wram := s.m.wram[l := High(v)][l - 1 := Low(v)])
            && t.r == s.r.(sp := Reg(Sixteen, t.r.sp.value))
  {
    PushCell(s, High(v));
    PushCell(s.Push(High(v)), Low(v));
  }

  lemma PullWordCells(s: Machine)
    requires OnLowPage(s) && Level(s.r.sp.value) + 2 < LOW_PAGE
    ensures var (t, v) := s.PullWord(); var l := Level(s.r.sp.value);
            OnLowPage(t) && Level(t.r.sp.value) == l + 2
            && t.m == s.m && v == Word(s.m.wram[l + 1], s.m.wram[l + 2])
            && t.r == s.r.(sp := Reg(Sixteen, t.r.sp.value))
  {
    PullCell(s);
    PullCell(s.Pull().0);
  }

  /**
   A register pushed in `s` and pulled in any later state `u` with the pointer back below it and the
   stack above the pointer intact comes back, provided its length is the same then as before.
   */
  lemma PushedRegisterComesBack(s: Machine, reg: Reg, u: Machine, target: Reg)
    requires OnLowPage(s) && Level(s.r.sp.value) >= SizeOf(reg.len) - 1
    requires var t := PushReg(s, reg);
             OnLowPage(u) && u.r.sp == t.r.sp && OnLowPage(t) && SameAbove(t, u, Level(t.r.sp.value))
    requires target.len == reg.len
    ensures var (v', v) := PullFor(u, target);
            v == reg.Visible() && v'.r == u.r.(sp := s.r.sp) && v'.m == u.m
            && OnLowPage(v') && SameAbove(s, v', Level(s.r.sp.value))
  {
    if reg.len == Sixteen {
      PushWordCells(s, reg.value);
      PullWordCells(u);
    } else {
      PushCell(s, reg.Low());
      PullCell(u);
    }
  }

  /** The five push instructions that have a pull. */
  datatype Saved = SavedA | SavedX | SavedY | SavedD | SavedB

  function PushOf(k: Saved): Mnemonic {
    match k case SavedA => PHA case SavedX => PHX case SavedY => PHY case SavedD => PHD case SavedB => PHB
  }

  function PullOf(k: Saved): Mnemonic {
    match k case SavedA => PLA case SavedX => PLX case SavedY => PLY case SavedD => PLD case SavedB => PLB
  }

  /** The saved register as a register of its current length. */
  function RegOf(k: Saved, r: Regs): Reg {
    match k
    case SavedA => r.acc
    case SavedX => r.x
    case SavedY => r.y
    case SavedD => Reg(Sixteen, r.dp)
    case SavedB => Reg(Eight, r.dbr)
  }

  lemma ExecutedPush(s: Machine, k: Saved, eff: Effective)
    ensures Execute(s, PushOf(k), eff) == PushReg(s, RegOf(k, s.r))
  {
    PushDispatch(s, k, eff);
    hide ExecutePush, PushOf, RegOf, PushReg;
    DispatchPush(s, PushOf(k), eff);
  }

  lemma PushDispatch(s: Machine, k: Saved, eff: Effective)
    ensures GroupOf(PushOf(k)) == PushGroup
    ensures ExecutePush(s, PushOf(k), eff) == PushReg(s, RegOf(k, s.r))
  {
    hide BusMemory.Write;
    match k
    case SavedA =>
    case SavedX =>
    case SavedY =>
    case SavedD =>
    case SavedB =>
  }

  function PullInto(s: Machine, k: Saved): Machine {
    match k
    case SavedA => Pla(s)
    case SavedX => Plx(s)
    case SavedY => Ply(s)
    case SavedD => Pld(s)
    case SavedB => Plb(s)
  }

  lemma ExecutedPull(s: Machine, k: Saved, eff: Effective)
    ensures Execute(s, PullOf(k), eff) == PullInto(s, k)
  {
    PullDispatch(s, k);
    hide ExecutePull, PullOf, PullInto;
    DispatchPull(s, PullOf(k), eff);
  }

  lemma PullDispatch(s: Machine, k: Saved)
    ensures GroupOf(PullOf(k)) == PullGroup
    ensures ExecutePull(s, PullOf(k)) == PullInto(s, k)
  {
    hide BusMemory.Read;
    match k
    case SavedA =>
    case SavedX =>
    case SavedY =>
    case SavedD =>
    case SavedB =>
  }

  lemma PullIntoEffect(s: Machine, k: Saved)
    ensures var t := PullInto(s, k); var (s', v) := PullFor(s, RegOf(k, s.r));
            && t.m == s'.m && t.r.sp == s'.r.sp
            && RegOf(k, t.r).len == RegOf(k, s.r).len && RegOf(k, t.r).Visible() == v
            && t.r.p.z == (v == 0) && t.r.p.n == Top(RegOf(k, s.r).len, v)
  {
    hide BusMemory.Read;
    match k
    case SavedA => WordParts(PullFor(s, s.r.acc).1 % 0x100, s.r.acc.High());
    case SavedX =>
    case SavedY =>
    case SavedD =>
    case SavedB =>
  }

  /** PHA/PLA, PHX/PLX, PHY/PLY, PHD/PLD and PHB/PLB bring back value and pointer around anything balanced. */
  lemma PushPullRoundTrip(s: Machine, k: Saved, u: Machine, eff: Effective)
    requires OnLowPage(s) && Level(s.r.sp.value) >= SizeOf(RegOf(k, s.r).len) - 1
    requires var t := Execute(s, PushOf(k), eff);
             OnLowPage(t) && OnLowPage(u) && u.r.sp == t.r.sp && SameAbove(t, u, Level(t.r.sp.value))
    requires RegOf(k, u.r).len == RegOf(k, s.r).len
    ensures var v := Execute(u, PullOf(k), eff);
            && RegOf(k, v.r).Visible() == RegOf(k, s.r).Visible()
            && v.r.sp == s.r.sp && v.m == u.m
            && OnLowPage(v) && SameAbove(s, v, Level(s.r.sp.value))
            && v.r.p.z == (RegOf(k, s.r).Visible() == 0)
            && v.r.p.n == Top(RegOf(k, s.r).len, RegOf(k, s.r).Visible())
  {
    hide BusMemory.Read, BusMemory.Write;
    ExecutedPush(s, k, eff);
    PushedRegisterComesBack(s, RegOf(k, s.r), u, RegOf(k, u.r));
    ExecutedPull(u, k, eff);
    PullIntoEffect(u, k);
  }
}
