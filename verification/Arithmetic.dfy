/** Addition, subtraction and comparison, one instruction at a time. */
module ArithmeticOps {
  import opened Bytes
  import opened BusMemory
  import opened CpuRegisters
  import opened CpuMachine
  import opened AddressingModes
  import opened Instructions

  function Modulus(len: Width): nat { if len == Eight then 0x100 else 0x1_0000 }

  function BitCount(len: Width): nat { if len == Eight then 8 else 16 }

  /** The conversion of a C integer to a value of the given width. */
  function Truncated(len: Width, v: int): u16 { if len == Eight then Trunc8(v) else Trunc16(v) }

  function SignedOf(len: Width, v: u16): int { if len == Eight then Signed8(Low(v)) else Signed16(v) }

  predicate FitsSigned(len: Width, v: int) { -(Modulus(len) / 2) <= v < Modulus(len) / 2 }

  /** The operand of an instruction on the accumulator, at the accumulator's width. */
  function OperandOf(s: Machine, eff: Effective): u16 {
    var v := Fetch(s, eff, SizeOf(s.r.acc.len));
    if s.r.acc.len == Eight then Low(v) else v
  }

  /** Only the accumulator's visible part and the flags may differ. */
  predicate OnlyAccumulator(s: Machine, t: Machine) {
    && t.m == s.m
    && t.r == s.r.(acc := t.r.acc, p := t.r.p)
    && t.r.acc.len == s.r.acc.len
    && (s.r.acc.len == Eight ==> t.r.acc.High() == s.r.acc.High())
    && t.r.p == s.r.p.(n := t.r.p.n, v := t.r.p.v, z := t.r.p.z, c := t.r.p.c)
  }

  lemma SetAccVisible(r: Regs, v: u16)
    requires r.acc.len == Eight ==> v < 0x100
    ensures var t := r.SetAcc(v);
            && t.acc.Visible() == v && t.acc.len == r.acc.len
            && (r.acc.len == Eight ==> t.acc.High() == r.acc.High())
            && t == r.(acc := t.acc, p := r.p.(z := v == 0, n := Top(r.acc.len, v)))
  {
    if r.acc.len == Eight {
      WordParts(v, r.acc.High());
    }
  }

  /**
   Binary ADC at either width: the sum modulo 2^w, signed overflow exactly, and a carry flag that
   also asks for a clear top bit of the result.
   */
  lemma AdcMeaning(s: Machine, eff: Effective)
    requires !s.r.p.d
    ensures var t := Adc(s, eff); var len := s.r.acc.len;
            var a, b, c := s.r.acc.Visible(), OperandOf(s, eff), CarryIn(s.r);
            var result := t.r.acc.Visible();
            && result == Truncated(len, a + b + c)
            && t.r.p.v == !FitsSigned(len, SignedOf(len, a) + SignedOf(len, b) + c)
            && t.r.p.c == (a + b + c >= Modulus(len) && !Top(len, result))
            && t.r.p.z == (result == 0) && t.r.p.n == Top(len, result)
            && OnlyAccumulator(s, t)
  {
    hide Adc, Fetch, OperandOf, AddCarry, AddOverflow, FitsSigned, SignedOf, Top, Truncated;
    var len := s.r.acc.len;
    var a, b := s.r.acc.Visible(), OperandOf(s, eff);
    AdcSteps(s, eff);
    AddFlags(len, a, b, CarryIn(s.r));
    var result: u16 := Truncated(len, a + b + CarryIn(s.r));
    AddResult(s.r, result, AddCarry(len, a, b, result), AddOverflow(len, a, b, result));
  }

  lemma AddResult(r: Regs, result: u16, c: bool, v: bool)
    requires r.acc.len == Eight ==> result < 0x100
    ensures var t := r.PutC(c).PutV(v).SetAcc(result);
            && t.acc.Visible() == result && t.acc.len == r.acc.len
            && (r.acc.len == Eight ==> t.acc.High() == r.acc.High())
            && t == r.(acc := t.acc, p := r.p.(c := c, v := v, z := result == 0, n := Top(r.acc.len, result)))
  {
    SetAccVisible(r.PutC(c).PutV(v), result);
  }

  lemma AdcSteps(s: Machine, eff: Effective)
    requires !s.r.p.d
    ensures var len := s.r.acc.len;
            var a, b := s.r.acc.Visible(), OperandOf(s, eff);
            b < Modulus(len) &&
            var result: u16 := Truncated(len, a + b + CarryIn(s.r));
            Adc(s, eff) ==
            s.WithRegs(s.r.PutC(AddCarry(len, a, b, result)).PutV(AddOverflow(len, a, b, result)).SetAcc(result))
  {
    hide Fetch, AddCarry, AddOverflow;
  }

  lemma AddFlags(len: Width, a: u16, b: u16, c: nat)
    requires a < Modulus(len) && b < Modulus(len) && c <= 1
    ensures var result: u16 := Truncated(len, a + b + c);
            && result < Modulus(len)
            && AddOverflow(len, a, b, result) == !FitsSigned(len, SignedOf(len, a) + SignedOf(len, b) + c)
            && AddCarry(len, a, b, result) == (a + b + c >= Modulus(len) && !Top(len, result))
  {
    if len == Eight {
      assert Low(a) == a && Low(b) == b;
    }
  }

  /**
   The carry flag is the true carry except when both operands are in the upper half of their range
   and the sum reaches one and a half times the modulus.
   */
  lemma AdcCarryDeviatesIff(s: Machine, eff: Effective)
    requires !s.r.p.d
    ensures var len := s.r.acc.len; var half := Modulus(len) / 2;
            var a, b, c := s.r.acc.Visible(), OperandOf(s, eff), CarryIn(s.r);
            Adc(s, eff).r.p.c != (a + b + c >= Modulus(len)) <==> a >= half && b >= half && a + b + c >= 3 * half
  {
    hide Adc, Fetch, OnlyAccumulator, FitsSigned;
    AdcMeaning(s, eff);
    OperandFitsWidth(s, eff);
    CarryIff(s.r.acc.len, s.r.acc.Visible(), OperandOf(s, eff), CarryIn(s.r));
  }

  lemma CarryIff(len: Width, a: u16, b: u16, c: nat)
    requires a < Modulus(len) && b < Modulus(len) && c <= 1
    ensures var result: u16 := Truncated(len, a + b + c); var half := Modulus(len) / 2;
            a + b + c >= Modulus(len) && Top(len, result) <==> a >= half && b >= half && a + b + c >= 3 * half
  {
    if len == Eight {
      var result: u16 := Truncated(len, a + b + c);
      assert Low(result) == result;
    }
  }

  /** C0 + C0 at 8 bits: the sum is 180, and the carry comes out clear. */
  lemma AdcLosesCarry(m: Memory)
    ensures var s := Machine(ZEROED.(acc := Reg(Eight, 0xC0)), m); var eff := Effective(ImmediateData, 0xC0);
            && s.r.acc.Visible() + OperandOf(s, eff) + CarryIn(s.r) == 0x180
            && Adc(s, eff).r.acc.Visible() == 0x80 && !Adc(s, eff).r.p.c
  {
    hide Adc;
    AddsTwice(Machine(ZEROED.(acc := Reg(Eight, 0xC0)), m), Effective(ImmediateData, 0xC0));
  }

  lemma AddsTwice(s: Machine, eff: Effective)
    requires !s.r.p.d && s.r.acc.len == Eight && CarryIn(s.r) == 0
    requires s.r.acc.Visible() == 0xC0 && OperandOf(s, eff) == 0xC0
    ensures Adc(s, eff).r.acc.Visible() == 0x80 && !Adc(s, eff).r.p.c
  {
    hide Adc, OperandOf, FitsSigned, OnlyAccumulator, CarryIn;
    AdcMeaning(s, eff);
  }

  /** 16-bit SBC: the difference with borrow modulo 2^16, the borrow in C, signed overflow in V. */
  lemma SbcMeaning(s: Machine, eff: Effective)
    requires s.r.acc.len == Sixteen
    ensures var t := Sbc(s, eff);
            var a, b, borrow := s.r.acc.value, OperandOf(s, eff), 1 - CarryIn(s.r);
            && t.r.acc.value == Trunc16(a - b - borrow)
            && t.r.p.c == (a >= b + borrow)
            && t.r.p.v == !FitsSigned(Sixteen, Signed16(a) - Signed16(b) - borrow)
            && t.r.p.z == (t.r.acc.value == 0) && t.r.p.n == Top(Sixteen, t.r.acc.value)
            && OnlyAccumulator(s, t)
  {
    hide Fetch;
  }

  /** 8-bit SBC of a byte is only a comparison with borrow: C is right, V is cleared, A, N and Z stay. */
  lemma SbcAtEightBits(s: Machine, eff: Effective)
    requires s.r.acc.len == Eight && Fetch(s, eff, 1) < 0x100
    ensures var a, b, borrow := s.r.acc.Low(), Fetch(s, eff, 1), 1 - CarryIn(s.r);
            Sbc(s, eff) == s.WithRegs(s.r.(p := s.r.p.(c := a >= b + borrow, v := false)))
  {
    hide Fetch;
  }

  lemma FetchIgnoresFlags(s: Machine, t: Machine, eff: Effective)
    requires s.m == t.m && s.r.acc == t.r.acc
    ensures forall size: nat :: Fetch(s, eff, size) == Fetch(t, eff, size)
  {
    hide BusMemory.Read;
  }

  lemma WrappedDifference(len: Width, a: u16, b: u16)
    requires a < Modulus(len) && b < Modulus(len)
    ensures var d := Truncated(len, a - b);
            d == (if a >= b then a - b else a - b + Modulus(len)) && d < Modulus(len) && (d == 0 <==> a == b)
            && Top(len, d) == (if len == Eight then Signed8(d) < 0 else Signed16(d) < 0)
  {
  }

  lemma OperandFitsWidth(s: Machine, eff: Effective)
    ensures OperandOf(s, eff) < Modulus(s.r.acc.len) && s.r.acc.Visible() < Modulus(s.r.acc.len)
  {
    hide Fetch;
  }

  /** CMP at both widths is an unsigned comparison. */
  lemma CmpMeaning(s: Machine, eff: Effective)
    ensures var t := Cmp(s, eff); var a, b := s.r.acc.Visible(), OperandOf(s, eff);
            && t.r.p.c == (a >= b) && t.r.p.z == (a == b)
            && t.r.p.n == Top(s.r.acc.len, Truncated(s.r.acc.len, a - b))
            && t == s.WithRegs(s.r.(p := s.r.p.(n := t.r.p.n, z := t.r.p.z, c := t.r.p.c)))
  {
    OperandFitsWidth(s, eff);
    WrappedDifference(s.r.acc.len, s.r.acc.Visible(), OperandOf(s, eff));
    hide Fetch, Low, Top, Signed8, Signed16, Trunc8, Trunc16;
  }

  /** CMP leaves in N, Z and C what a 16-bit SBC with C set would, and touches nothing else. */
  lemma CmpMatchesSbc(s: Machine, eff: Effective)
    requires s.r.acc.len == Sixteen
    ensures var t := Cmp(s, eff); var u := Sbc(s.WithRegs(s.r.PutC(true)), eff);
            && t.r.p.n == u.r.p.n && t.r.p.z == u.r.p.z && t.r.p.c == u.r.p.c
            && t == s.WithRegs(s.r.(p := s.r.p.(n := t.r.p.n, z := t.r.p.z, c := t.r.p.c)))
  {
    var s1 := s.WithRegs(s.r.PutC(true));
    FetchIgnoresFlags(s, s1, eff);
    SbcMeaning(s1, eff);
    CmpMeaning(s, eff);
    hide Fetch, Sbc, Cmp, Top, FitsSigned, Signed16;
  }
}
