/** ROL A as a rotation: the bits of the accumulator and the carry form a ring. */
module Rotation {
  import opened BitStrings
  import opened Bytes
  import opened CpuRegisters
  import opened CpuMachine
  import opened Opcodes
  import opened AddressingModes
  import opened Instructions
  import opened ArithmeticOps

  /** The accumulator's bits from the lowest up, then the carry. */
  function Ring(r: Regs): (ring: seq<bool>)
    ensures |ring| == BitCount(r.acc.len) + 1
  {
    Bits(BitCount(r.acc.len), r.acc.Visible()) + [r.p.c]
  }

  /** The last element goes to the front. */
  function Rotate(s: seq<bool>): seq<bool>
    requires s != []
  {
    [s[|s| - 1]] + s[..|s| - 1]
  }

  /** Doubling in n + 1 bits with a bit shifted in: the bits move up by one and the top one is lost. */
  lemma ShiftIn(n: nat, v: nat, c: bool)
    requires v < Exp2(n + 1)
    ensures var doubled := (2 * v + if c then 1 else 0) - (if v >= Exp2(n) then Exp2(n + 1) else 0);
            0 <= doubled < Exp2(n + 1) && Bits(n + 1, doubled) == [c] + Bits(n + 1, v)[..n]
  {
    TopBit(n, v);
    var rest := if v >= Exp2(n) then v - Exp2(n) else v;
    Residue(Exp2(n), if v >= Exp2(n) then 1 else 0, rest);
    var doubled := 2 * rest + if c then 1 else 0;
    assert doubled / 2 == rest;
    assert Bits(n + 1, v)[..n] == Bits(n, rest);
  }

  /** What no number of rotations changes. */
  predicate OnlyRotated(s: Machine, t: Machine) {
    && t.m == s.m && t.r.acc.len == s.r.acc.len
    && (s.r.acc.len == Eight ==> t.r.acc.High() == s.r.acc.High())
    && t.r == s.r.(acc := t.r.acc, p := s.r.p.(c := t.r.p.c, z := t.r.p.z, n := t.r.p.n))
  }

  /** One ROL A: the accumulator shifts the carry in, the carry takes its top bit, and little else changes. */
  predicate Rolled(s: Machine, t: Machine) {
    var x, len := s.r.acc.Visible(), s.r.acc.len;
    && OnlyRotated(s, t) && t.r.p.c == Top(len, x)
    && t.r.acc.Visible() == if len == Eight then Trunc8(2 * x + CarryIn(s.r)) else Trunc16(2 * x + CarryIn(s.r))
  }

  lemma RolMeaning(s: Machine, junk: u32)
    ensures Rolled(s, Rol(s, Effective(AccumulatorOperand, junk)))
  {
    hide Regs.SetAcc, Reg.Visible, Reg.High;
    var x, len := s.r.acc.Visible(), s.r.acc.len;
    assert len == Eight ==> Low(x) == x by { VisibleFits(s.r.acc); }
    var result := if len == Eight then Trunc8(2 * x + CarryIn(s.r)) else Trunc16(2 * x + CarryIn(s.r));
    SetAccVisible(s.r.PutC(Top(len, x)), result);
    hide Trunc8, Trunc16, Top;
  }

  lemma VisibleFits(reg: Reg)
    ensures reg.len == Eight ==> reg.Visible() < 0x100
  {
  }

  lemma RolOnAccumulator(s: Machine, junk: u32)
    ensures Rolled(s, Execute(s, ROL, Effective(AccumulatorOperand, junk)))
  {
    hide Execute, Rol, Rolled;
    ExecuteRol(s, Effective(AccumulatorOperand, junk));
    RolMeaning(s, junk);
  }

  /** ROL A turns the ring by one place. */
  lemma RolledRotates(s: Machine, t: Machine)
    requires Rolled(s, t)
    ensures Ring(t.r) == Rotate(Ring(s.r))
  {
    hide Bits, Reg.Visible, Exp2;
    var n, x, c := BitCount(s.r.acc.len) - 1, s.r.acc.Visible(), s.r.p.c;
    ExpValues();
    VisibleFits(s.r.acc);
    ShiftIn(n, x, c);
    TopBit(n, x);
    WrappedDouble(s.r.acc.len, x, CarryIn(s.r));
    hide Trunc8, Trunc16;
    assert Bits(n + 1, t.r.acc.Visible()) == [c] + Bits(n + 1, x)[..n];
    assert Bits(n + 1, x)[n] == Top(s.r.acc.len, x);
  }

  lemma WrappedDouble(len: Width, x: u16, c: nat)
    requires c <= 1 && (len == Eight ==> x < 0x100)
    ensures Top(len, x) == (x >= if len == Eight then 0x80 else 0x8000)
    ensures len == Eight ==> Trunc8(2 * x + c) == 2 * x + c - if x >= 0x80 then 0x100 else 0
    ensures len == Sixteen ==> Trunc16(2 * x + c) == 2 * x + c - if x >= 0x8000 then 0x1_0000 else 0
  {
  }

  function RolTimes(s: Machine, k: nat, junk: u32): Machine {
    if k == 0 then s else Execute(RolTimes(s, k - 1, junk), ROL, Effective(AccumulatorOperand, junk))
  }

  lemma RotateStep(ring: seq<bool>, k: nat)
    requires 0 < k <= |ring|
    ensures var n := |ring|;
            Rotate(ring[n - (k - 1)..] + ring[..n - (k - 1)]) == ring[n - k..] + ring[..n - k]
  {
  }

  /** k times ROL A: the last k of the ring's bits are now the first ones. */
  lemma {:induction false} RolTimesRotates(s: Machine, k: nat, junk: u32)
    requires k <= |Ring(s.r)|
    ensures var t := RolTimes(s, k, junk); var ring := Ring(s.r);
            OnlyRotated(s, t) && Ring(t.r) == ring[|ring| - k..] + ring[..|ring| - k]
  {
    hide Execute, Ring, Rotate;
    if k > 0 {
      var t := RolTimes(s, k - 1, junk);
      RolTimesRotates(s, k - 1, junk);
      RolOnAccumulator(t, junk);
      RolledRotates(t, RolTimes(s, k, junk));
      RotateStep(Ring(s.r), k);
      hide Top, CarryIn, Reg.Visible, Reg.High;
    }
  }

  /** 9 times ROL A at 8 bits, and 17 times at 16 bits, is the identity on the accumulator and the carry. */
  lemma FullTurn(s: Machine, junk: u32)
    ensures var t := RolTimes(s, BitCount(s.r.acc.len) + 1, junk);
            t.r.acc == s.r.acc && t.r.p.c == s.r.p.c && OnlyRotated(s, t)
  {
    hide RolTimes, Bits;
    var n := BitCount(s.r.acc.len);
    var t := RolTimes(s, n + 1, junk);
    RolTimesRotates(s, n + 1, junk);
    assert Ring(t.r) == Ring(s.r);
    assert Ring(t.r)[..n] == Bits(n, t.r.acc.Visible()) && Ring(s.r)[..n] == Bits(n, s.r.acc.Visible());
    assert Ring(t.r)[n] == t.r.p.c && Ring(s.r)[n] == s.r.p.c;
    ExpValues();
    hide Exp2;
    BitsDetermine(n, t.r.acc.Visible(), s.r.acc.Visible());
  }
}
