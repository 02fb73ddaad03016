/** What the bitwise instructions do to each bit. */
module BitwiseOps {
  import opened AddrDecoder
  import opened ArithmeticOps
  import opened BitStrings
  import opened Bytes
  import opened CpuRegisters
  import opened CpuMachine
  import opened AddressingModes
  import opened Instructions
  import opened ReadModifyWrite

  predicate Bit(v: u16, i: nat)
    requires i < 16
  {
    Bits(16, v)[i]
  }

  lemma BitOfLow(v: u16, i: nat)
    requires i < 16
    ensures Bit(Low(v), i) == (i < 8 && Bit(v, i))
  {
    ExpValues();
    if i < 8 {
      BitsOfResidue(8, v);
      BitsPrefix(16, 8, v);
      BitsPrefix(16, 8, Low(v));
      assert Bits(16, v)[..8] == Bits(16, Low(v))[..8];
      assert Bits(16, v)[i] == Bits(16, v)[..8][i];
      assert Bits(16, Low(v))[i] == Bits(16, Low(v))[..8][i];
    } else {
      HighBits(16, 8, Low(v), i);
    }
  }

  /** A number of k bits has none set from the k-th on. */
  lemma {:induction false} HighBits(n: nat, k: nat, v: nat, i: nat)
    requires k <= i < n && v < Exp2(k)
    ensures !Bits(n, v)[i]
  {
    if k > 0 {
      HighBits(n - 1, k - 1, v / 2, i - 1);
    } else if i > 0 {
      HighBits(n - 1, 0, v / 2, i - 1);
    }
  }

  lemma BitOfCombined(op: BitOp, a: u16, b: u16, i: nat)
    requires i < 16
    ensures Bit(Combined(op, a, b), i) == op.On(Bit(a, i), Bit(b, i))
  {
    CombineBits(op, 16, a, b, i);
  }

  lemma BitOfComplement(v: u16, i: nat)
    requires i < 16
    ensures Bit(0xFFFF - v, i) == !Bit(v, i)
  {
    ExpValues();
    ComplementBits(16, v, i);
  }

  predicate Both(a: u16, b: u16, i: nat)
    requires i < 16
  {
    Bit(a, i) && Bit(b, i)
  }

  /** Some bit is set in both. */
  predicate Meet(a: u16, b: u16) { exists i :: 0 <= i < 16 && Both(a, b, i) }

  lemma MeetIff(a: u16, b: u16)
    ensures BitAnd(a, b) != 0 <==> Meet(a, b)
  {
    ExpValues();
    hide Exp2, Bits;
    var r := BitAnd(a, b);
    ZeroBits(16, r);
    forall i | 0 <= i < 16
      ensures Bits(16, r)[i] == Both(a, b, i)
    {
      BitOfCombined(AndOp, a, b, i);
    }
    hide Combined, Both;
    if r != 0 {
      var i :| 0 <= i < 16 && Bits(16, r)[i];
      assert Both(a, b, i);
    }
  }

  /** An 8-bit accumulator hides the upper half of a 16-bit datum. */
  lemma MeetAtWidth(len: Width, a: u16, v: u16)
    requires len == Eight ==> a < 0x100
    ensures Meet(a, v) == Meet(a, Cut(len, v))
  {
    if len == Eight {
      forall i | 0 <= i < 16
        ensures Both(a, v, i) == Both(a, Low(v), i)
      {
        BitOfLow(a, i);
        BitOfLow(v, i);
        assert Low(a) == a;
      }
    }
    hide Both;
  }

  predicate BitwiseResult(len: Width, op: BitOp, a: u16, b: u16, result: u16) {
    forall i :: 0 <= i < BitCount(len) ==> Bit(result, i) == op.On(Bit(a, i), Bit(b, i))
  }

  lemma CombinedAtWidth(len: Width, op: BitOp, a: u16, b: u16)
    ensures BitwiseResult(len, op, Cut(len, a), Cut(len, b), Cut(len, Combined(op, a, b)))
  {
    forall i | 0 <= i < BitCount(len)
      ensures Bit(Cut(len, Combined(op, a, b)), i) == op.On(Bit(Cut(len, a), i), Bit(Cut(len, b), i))
    {
      BitOfCombined(op, a, b, i);
      BitOfLow(a, i);
      BitOfLow(b, i);
      BitOfLow(Combined(op, a, b), i);
    }
  }

  /** AND, ORA and EOR work on each bit of the accumulator and the operand, at either width. */
  lemma LogicMeaning(s: Machine, op: BitOp, eff: Effective)
    ensures var t := Logic(s, op, eff); var result := t.r.acc.Visible();
            && BitwiseResult(s.r.acc.len, op, s.r.acc.Visible(), OperandOf(s, eff), result)
            && t.r.p.z == (result == 0) && t.r.p.n == Top(s.r.acc.len, result)
            && OnlyAccumulator(s, t)
  {
    var a, v := s.r.acc.value, Fetch(s, eff, SizeOf(s.r.acc.len));
    CombinedAtWidth(s.r.acc.len, op, a, v);
    hide Combined, Fetch, BitwiseResult;
    SetAccCut(s.r, Combined(op, a, v));
  }

  lemma SetAccCut(r: Regs, v: u16)
    ensures var t := r.SetAcc(v); var x := Cut(r.acc.len, v);
            && t.acc.Visible() == x && t.acc.len == r.acc.len
            && (r.acc.len == Eight ==> t.acc.High() == r.acc.High())
            && t == r.(acc := t.acc, p := r.p.(z := x == 0, n := Top(r.acc.len, x)))
  {
    if r.acc.len == Eight {
      WordParts(Low(v), r.acc.High());
    }
  }

  /** BIT as written: Z when accumulator and operand do share a bit, N from the operand, nothing else. */
  lemma BitTestMeaning(s: Machine, eff: Effective)
    ensures var t := BitTest(s, eff); var b := OperandOf(s, eff);
            t == s.WithRegs(s.r.(p := s.r.p.(z := Meet(s.r.acc.Visible(), b), n := Top(s.r.acc.len, b))))
  {
    var len, a, v := s.r.acc.len, s.r.acc.Visible(), Fetch(s, eff, SizeOf(s.r.acc.len));
    MeetIff(a, v);
    MeetAtWidth(len, a, v);
    SignBits(OperandOf(s, eff));
    hide Fetch, BitAnd, Meet, Top, Signed8, Signed16;
  }

  /** What TRB and TSB make of a bit of memory. */
  predicate TestedBits(len: Width, on: bool, x: u16, a: u16, result: u16) {
    forall i :: 0 <= i < BitCount(len) ==>
      Bit(result, i) == if on then Bit(x, i) || Bit(a, i) else Bit(x, i) && !Bit(a, i)
  }

  function Tested(on: bool, x: u16, a: u16): u16 { if on then BitOr(x, a) else BitAnd(x, 0xFFFF - a) }

  lemma TestedAtWidth(len: Width, on: bool, x: u16, a: u16)
    ensures TestedBits(len, on, x, Cut(len, a), Cut(len, Tested(on, x, a)))
  {
    var result := Tested(on, x, a);
    forall i | 0 <= i < BitCount(len)
      ensures Bit(Cut(len, result), i) ==
              if on then Bit(x, i) || Bit(Cut(len, a), i) else Bit(x, i) && !Bit(Cut(len, a), i)
    {
      BitOfLow(result, i);
      BitOfLow(a, i);
      if on {
        BitOfCombined(OrOp, x, a, i);
      } else {
        BitOfCombined(AndOp, x, 0xFFFF - a, i);
        BitOfComplement(a, i);
      }
    }
  }

  lemma TestBitsStores(s: Machine, eff: Effective, on: bool)
    requires Writable(s, eff) && !eff.kind.AccumulatorOperand?
    ensures var t := TestBits(s, eff, on); var x := Data(s, eff);
            && Data(t, eff) == Cut(s.r.acc.len, Tested(on, x, s.r.acc.value))
            && t.r == s.r.PutZ(BitAnd(x, s.r.acc.Visible()) == 0)
  {
    hide BitAnd, BitOr, CellOf, BusMemory.Read, BusMemory.Write, IsRam, Low, High, Word;
    var a, b, result := eff.address, Trunc32(eff.address + 1), Tested(on, Data(s, eff), s.r.acc.value);
    if s.r.acc.len == Eight {
      RamReadsBack(s.m, a, Low(result), a);
    } else {
      RamIsCell(s.m, a);
      NeighboursDiffer(a);
      WordReadsBack(s.m, a, b, result);
    }
  }

  /** TSB sets, and TRB clears, exactly the memory bits set in A; Z when there were none of them. */
  lemma TestBitsMeaning(s: Machine, eff: Effective, on: bool)
    requires Writable(s, eff) && !eff.kind.AccumulatorOperand?
    ensures var t := TestBits(s, eff, on); var x, a := Data(s, eff), s.r.acc.Visible();
            && TestedBits(s.r.acc.len, on, x, a, Data(t, eff))
            && t.r == s.r.(p := s.r.p.(z := !Meet(x, a)))
  {
    TestBitsStores(s, eff, on);
    TestedAtWidth(s.r.acc.len, on, Data(s, eff), s.r.acc.value);
    MeetIff(Data(s, eff), s.r.acc.Visible());
    hide TestBits, BitAnd, BitOr, Meet, TestedBits, Data;
  }

  /** ROR as written: the operand halved, the old carry on top, and the operand's old top bit in C. */
  lemma RorMeaning(s: Machine, eff: Effective)
    ensures var t := Ror(s, eff); var x, len := OperandOf(s, eff), s.r.acc.len;
            && t.r.acc.Visible() == x / 2 + CarryIn(s.r) * (Modulus(len) / 2)
            && t.r.p.c == Top(len, x) && OnlyAccumulator(s, t)
  {
    var len, v := s.r.acc.len, Fetch(s, eff, SizeOf(s.r.acc.len));
    hide Fetch, Regs.SetAcc;
    OperandFitsWidth(s, eff);
    TopOfCut(len, v);
    hide Top;
    SetAccVisible(s.r.PutC(Top(len, v)), OperandOf(s, eff) / 2 + CarryIn(s.r) * (Modulus(len) / 2));
  }

  lemma TopOfCut(len: Width, v: u16)
    ensures Top(len, v) == Top(len, Cut(len, v))
  {
  }

  /** CPX and CPY: C compares without sign; N and Z describe the difference, but at 8 bits the operand. */
  lemma CompareIndexMeaning(s: Machine, reg: Reg, eff: Effective)
    ensures var t := CompareIndex(s, reg, eff); var b := Cut(reg.len, Fetch(s, eff, SizeOf(reg.len)));
            && t.r.p.c == (reg.Visible() >= b)
            && t.r.p.z == (if reg.len == Eight then b == 0 else reg.value == b)
            && t.r.p.n == Top(reg.len, if reg.len == Eight then b else Trunc16(reg.value - b))
            && t == s.WithRegs(s.r.(p := s.r.p.(n := t.r.p.n, z := t.r.p.z, c := t.r.p.c)))
  {
    hide Fetch;
    var b := Cut(reg.len, Fetch(s, eff, SizeOf(reg.len)));
    SignBits(b);
    if reg.len == Sixteen {
      WrappedDifference(Sixteen, reg.value, b);
    }
    hide Low, Top, Signed8, Signed16, Trunc16;
  }
}
