/** Arithmetic on numbers of n little-endian words, by chains of 16-bit instructions. */
module Multiword {
  import opened Bytes
  import opened AddrDecoder
  import opened BusMemory
  import opened CpuRegisters
  import opened CpuMachine
  import opened Opcodes
  import opened AddressingModes
  import opened Instructions
  import opened ArithmeticOps

  function Pow(n: nat): (p: nat)
    ensures p > 0
  {
    if n == 0 then 1 else 0x1_0000 * Pow(n - 1)
  }

  function WordIn(w: seq<u8>, c: nat): u16
    requires c + 2 <= |w|
  {
    Word(w[c], w[c + 1])
  }

  /** The number in n words of WRAM from cell `c` on. */
  function Number(w: seq<u8>, c: nat, n: nat): (v: nat)
    requires c + 2 * n <= |w|
    ensures v < Pow(n)
  {
    if n == 0 then 0 else
    MulLess(WordIn(w, c + 2 * (n - 1)), Pow(n - 1));
    Number(w, c, n - 1) + WordIn(w, c + 2 * (n - 1)) * Pow(n - 1)
  }

  lemma MulLess(x: u16, p: nat)
    ensures x * p + p <= 0x1_0000 * p
  {
    assert (0xFFFF - x) * p >= 0;
  }

  lemma {:induction false} NumberFrame(w: seq<u8>, w': seq<u8>, c: nat, n: nat)
    requires c + 2 * n <= |w| == |w'| && forall i :: c <= i < c + 2 * n ==> w'[i] == w[i]
    ensures Number(w', c, n) == Number(w, c, n)
  {
    if n > 0 {
      NumberFrame(w, w', c, n - 1);
    }
  }

  predicate Reaches(addr: u32, c: nat, i: nat)
    requires addr + i < 0x1_0000_0000
  {
    CellOf(addr + i) == WramCell(c + i)
  }

  /** The bus addresses from `addr` on reach n words of WRAM from cell `c` on. */
  predicate Region(addr: u32, c: nat, n: nat) {
    && addr + 2 * n < 0x1_0000_0000
    && c + 2 * n <= WRAM_SIZE
    && forall i :: 0 <= i < 2 * n ==> Reaches(addr, c, i)
  }

  /** Writing the result words from the lowest on never overtakes a source word still to be read. */
  predicate NotOvertaken(source: nat, dest: nat, n: nat) { dest <= source || source + 2 * n <= dest }

  lemma RegionWord(m: Memory, addr: u32, c: nat, n: nat, k: nat)
    requires Region(addr, c, n) && k < n && |m.wram| == WRAM_SIZE
    ensures ReadWord(m, addr + 2 * k) == WordIn(m.wram, c + 2 * k)
  {
    hide CellOf;
    assert Reaches(addr, c, 2 * k) && Reaches(addr, c, 2 * k + 1);
  }

  /** A 16-bit LDA and STA at plain addresses. */
  lemma LdaWord(s: Machine, addr: u32)
    requires s.r.acc.len == Sixteen
    ensures var t := Execute(s, LDA, Effective(SimpleAddress, addr));
            && t.m == s.m && t.r.acc == Reg(Sixteen, ReadWord(s.m, addr)) && t.r.p.c == s.r.p.c
  {
    hide Execute, ReadWord;
    ExecuteLda(s, Effective(SimpleAddress, addr));
  }

  lemma StaWord(s: Machine, addr: u32)
    requires s.r.acc.len == Sixteen
    ensures Execute(s, STA, Effective(SimpleAddress, addr)) ==
            s.Store(addr, s.r.acc.Low()).Store(Trunc32(addr + 1), s.r.acc.High())
  {
    hide Execute, BusMemory.Write;
    ExecuteSta(s, Effective(SimpleAddress, addr));
  }

  /** The WRAM after storing a word at cell `c`. */
  function PutWord(w: seq<u8>, c: nat, v: u16): seq<u8>
    requires c + 2 <= |w|
  {
    w[c := Low(v)][c + 1 := High(v)]
  }

  lemma StaRegion(s: Machine, addr: u32, c: nat, n: nat, k: nat)
    requires Region(addr, c, n) && k < n && |s.m.wram| == WRAM_SIZE && s.r.acc.len == Sixteen
    ensures Execute(s, STA, Effective(SimpleAddress, addr + 2 * k)) ==
            s.(m := s.m.(wram := PutWord(s.m.wram, c + 2 * k, s.r.acc.value)))
  {
    hide CellOf, Execute;
    StaWord(s, addr + 2 * k);
    assert Reaches(addr, c, 2 * k) && Reaches(addr, c, 2 * k + 1);
  }

  /** What the chains have in common after k words: only the result words changed. */
  predicate Progress(s: Machine, t: Machine, dest: nat, k: nat)
    requires |s.m.wram| == WRAM_SIZE && dest + 2 * k <= WRAM_SIZE
  {
    && t.r.acc.len == Sixteen
    && t.m == s.m.(wram := t.m.wram) && |t.m.wram| == WRAM_SIZE
    && forall i :: 0 <= i < WRAM_SIZE && !(dest <= i < dest + 2 * k) ==> t.m.wram[i] == s.m.wram[i]
  }

  lemma SourceUntouched(s: Machine, t: Machine, source: nat, dest: nat, n: nat, k: nat)
    requires |s.m.wram| == WRAM_SIZE && k < n && source + 2 * n <= WRAM_SIZE && dest + 2 * n <= WRAM_SIZE
    requires Progress(s, t, dest, k) && NotOvertaken(source, dest, n)
    ensures WordIn(t.m.wram, source + 2 * k) == WordIn(s.m.wram, source + 2 * k)
  {
  }

  lemma PutNumber(s: Machine, t: Machine, dest: nat, k: nat, v: u16)
    requires |s.m.wram| == WRAM_SIZE && dest + 2 * (k + 1) <= WRAM_SIZE && Progress(s, t, dest, k)
    ensures var w := PutWord(t.m.wram, dest + 2 * k, v);
            && Number(w, dest, k + 1) == Number(t.m.wram, dest, k) + v * Pow(k)
            && forall i :: 0 <= i < WRAM_SIZE && !(dest <= i < dest + 2 * (k + 1)) ==> w[i] == s.m.wram[i]
  {
    var w := PutWord(t.m.wram, dest + 2 * k, v);
    NumberFrame(t.m.wram, w, dest, k);
    assert WordIn(w, dest + 2 * k) == v;
  }

  // ---- subtraction

  /** LDA a, SBC b, STA d on the words at three addresses. */
  function SubWord(s: Machine, a: u32, b: u32, d: u32): Machine {
    var s := Execute(s, LDA, Effective(SimpleAddress, a));
    var s := Execute(s, SBC, Effective(SimpleAddress, b));
    Execute(s, STA, Effective(SimpleAddress, d))
  }

  /** The chain over n words, lowest first. */
  function SubChain(s: Machine, a: u32, b: u32, d: u32, n: nat): Machine
    requires a + 2 * n < 0x1_0000_0000 && b + 2 * n < 0x1_0000_0000 && d + 2 * n < 0x1_0000_0000
  {
    if n == 0 then s
    else SubWord(SubChain(s, a, b, d, n - 1), a + 2 * (n - 1), b + 2 * (n - 1), d + 2 * (n - 1))
  }

  function Borrow(r: Regs): int { 1 - CarryIn(r) }

  lemma SbcExecuted(s: Machine, b: u32)
    requires s.r.acc.len == Sixteen
    ensures var t := Execute(s, SBC, Effective(SimpleAddress, b)); var y := ReadWord(s.m, b);
            && t.m == s.m && t.r.acc == Reg(Sixteen, Trunc16(s.r.acc.value - y - Borrow(s.r)))
            && t.r.p.c == (s.r.acc.value >= y + Borrow(s.r))
            && t.r.p.v == !FitsSigned(Sixteen, Signed16(s.r.acc.value) - Signed16(y) - Borrow(s.r))
  {
    hide Execute, ReadWord, Sbc, FitsSigned;
    var eff := Effective(SimpleAddress, b);
    ExecuteSbc(s, eff);
    SbcMeaning(s, eff);
  }

  /** One word of the chain, on numbers: difference, borrow out and overflow. */
  lemma SubWordMeaning(s: Machine, a: u32, b: u32, d: u32, ca: nat, cb: nat, cd: nat, n: nat, k: nat)
    requires |s.m.wram| == WRAM_SIZE && s.r.acc.len == Sixteen && k < n
    requires Region(a, ca, n) && Region(b, cb, n) && Region(d, cd, n)
    ensures var t := SubWord(s, a + 2 * k, b + 2 * k, d + 2 * k);
            var x, y := WordIn(s.m.wram, ca + 2 * k), WordIn(s.m.wram, cb + 2 * k);
            var v := t.r.acc.value;
            && t.m == s.m.(wram := PutWord(s.m.wram, cd + 2 * k, v)) && t.r.acc.len == Sixteen
            && v == x - y - Borrow(s.r) + 0x1_0000 * Borrow(t.r)
            && t.r.p.v == !FitsSigned(Sixteen, Signed16(x) - Signed16(y) - Borrow(s.r))
  {
    hide Execute, ReadWord, Reaches, PutWord, WordIn;
    LdaWord(s, a + 2 * k);
    RegionWord(s.m, a, ca, n, k);
    var s1 := Execute(s, LDA, Effective(SimpleAddress, a + 2 * k));
    SbcExecuted(s1, b + 2 * k);
    RegionWord(s1.m, b, cb, n, k);
    var s2 := Execute(s1, SBC, Effective(SimpleAddress, b + 2 * k));
    StaRegion(s2, d, cd, n, k);
  }

  lemma {:induction false} SubChainMeaning(s: Machine, a: u32, b: u32, d: u32, ca: nat, cb: nat, cd: nat,
                                           n: nat, k: nat)
    requires |s.m.wram| == WRAM_SIZE && s.r.acc.len == Sixteen && k <= n
    requires Region(a, ca, n) && Region(b, cb, n) && Region(d, cd, n)
    requires NotOvertaken(ca, cd, n) && NotOvertaken(cb, cd, n)
    ensures var t := SubChain(s, a, b, d, k);
            && Progress(s, t, cd, k)
            && Number(t.m.wram, cd, k) ==
               Number(s.m.wram, ca, k) - Number(s.m.wram, cb, k) - Borrow(s.r) + Borrow(t.r) * Pow(k)
    decreases k
  {
    if k > 0 {
      var j := k - 1;
      var t := SubChain(s, a, b, d, j);
      SubChainMeaning(s, a, b, d, ca, cb, cd, n, j);
      SubWordMeaning(t, a, b, d, ca, cb, cd, n, j);
      SourceUntouched(s, t, ca, cd, n, j);
      SourceUntouched(s, t, cb, cd, n, j);
      var u := SubWord(t, a + 2 * j, b + 2 * j, d + 2 * j);
      PutNumber(s, t, cd, j, u.r.acc.value);
      var x, y := WordIn(s.m.wram, ca + 2 * j), WordIn(s.m.wram, cb + 2 * j);
      BorrowStep(u.r.acc.value, x, y, Borrow(t.r), Borrow(u.r), Pow(j));
    }
  }

  lemma BorrowStep(v: int, x: int, y: int, borrowIn: int, borrowOut: int, p: nat)
    requires v == x - y - borrowIn + 0x1_0000 * borrowOut
    ensures v * p == x * p - y * p - borrowIn * p + borrowOut * (0x1_0000 * p)
  {
    assert borrowOut * (0x1_0000 * p) == (0x1_0000 * borrowOut) * p;
    assert (x - y - borrowIn + 0x1_0000 * borrowOut) * p == x * p - y * p - borrowIn * p + (0x1_0000 * borrowOut) * p;
  }

  /** The number of n words as a two's complement number: the top word's sign counts for Pow(n). */
  function SignedNumber(w: seq<u8>, c: nat, n: nat): int
    requires 0 < n && c + 2 * n <= |w|
  {
    WithTop(Number(w, c, n - 1), WordIn(w, c + 2 * (n - 1)), Pow(n - 1))
  }

  /** From `s` to `t` the n words at `cd` became the difference of those at `ca` and `cb`. */
  predicate Subtracted(s: Machine, t: Machine, ca: nat, cb: nat, cd: nat, n: nat)
    requires |s.m.wram| == WRAM_SIZE && 0 < n
    requires ca + 2 * n <= WRAM_SIZE && cb + 2 * n <= WRAM_SIZE && cd + 2 * n <= WRAM_SIZE
  {
    var x, y := Number(s.m.wram, ca, n), Number(s.m.wram, cb, n);
    var diff := SignedNumber(s.m.wram, ca, n) - SignedNumber(s.m.wram, cb, n);
    && Progress(s, t, cd, n)
    && Number(t.m.wram, cd, n) == (if x >= y then x - y else x - y + Pow(n))
    && t.r.p.c == (x >= y)
    && t.r.p.v == Overflows(diff, Pow(n))
  }

  /**
   LDA/SBC/STA over n words with the carry set: the difference modulo 2^(16n) where the result goes
   and nothing else changed, no borrow (C) exactly when the minuend is at least the subtrahend, and
   V exactly when the two's complement difference does not fit n words.
   */
  lemma MultiwordSubtraction(s: Machine, a: u32, b: u32, d: u32, ca: nat, cb: nat, cd: nat, n: nat)
    requires |s.m.wram| == WRAM_SIZE && s.r.acc.len == Sixteen && s.r.p.c && 0 < n
    requires Region(a, ca, n) && Region(b, cb, n) && Region(d, cd, n)
    requires NotOvertaken(ca, cd, n) && NotOvertaken(cb, cd, n)
    ensures Subtracted(s, SubChain(s, a, b, d, n), ca, cb, cd, n)
  {
    hide SubChain, SubWord, Reaches, NotOvertaken, SignedNumber, Pow, Number, Progress, Overflows;
    SubChainMeaning(s, a, b, d, ca, cb, cd, n, n);
    ChainOverflow(s, a, b, d, ca, cb, cd, n);
    var t := SubChain(s, a, b, d, n);
    BorrowDecides(Number(t.m.wram, cd, n), Number(s.m.wram, ca, n), Number(s.m.wram, cb, n), t.r.p.c, Pow(n));
  }

  /** A difference brought into range by at most one borrow: the borrow says which operand is greater. */
  lemma BorrowDecides(v: nat, x: nat, y: nat, c: bool, p: nat)
    requires v < p && x < p && y < p && v == x - y + (if c then 0 else 1) * p
    ensures v == (if x >= y then x - y else x - y + p) && c == (x >= y)
  {
  }

  lemma ChainOverflow(s: Machine, a: u32, b: u32, d: u32, ca: nat, cb: nat, cd: nat, n: nat)
    requires |s.m.wram| == WRAM_SIZE && s.r.acc.len == Sixteen && s.r.p.c && 0 < n
    requires Region(a, ca, n) && Region(b, cb, n) && Region(d, cd, n)
    requires NotOvertaken(ca, cd, n) && NotOvertaken(cb, cd, n)
    ensures SubChain(s, a, b, d, n).r.p.v ==
            Overflows(SignedNumber(s.m.wram, ca, n) - SignedNumber(s.m.wram, cb, n), Pow(n))
  {
    hide SubWord, Reaches, Overflows, FitsSigned, WordIn, Number, Progress, NotOvertaken, Signed16, WithTop;
    var j := n - 1;
    var t := SubChain(s, a, b, d, j);
    SubChainMeaning(s, a, b, d, ca, cb, cd, n, j);
    SubWordMeaning(t, a, b, d, ca, cb, cd, n, j);
    SourceUntouched(s, t, ca, cd, n, j);
    SourceUntouched(s, t, cb, cd, n, j);
    var x, y := WordIn(s.m.wram, ca + 2 * j), WordIn(s.m.wram, cb + 2 * j);
    SignedDifference(Number(s.m.wram, ca, j), Number(s.m.wram, cb, j), x, y, Pow(j),
                     Number(t.m.wram, cd, j), Borrow(t.r));
  }

  predicate Overflows(diff: int, modulus: int) { !(-modulus <= 2 * diff < modulus) }

  function WithTop(low: nat, x: u16, p: nat): int { low + x * p - if x >= 0x8000 then 0x1_0000 * p else 0 }

  /** The top words with the borrow from below decide whether a two's complement difference fits. */
  lemma SignedDifference(a: nat, b: nat, x: u16, y: u16, p: nat, rest: nat, borrow: int)
    requires rest < p && a - b == rest - borrow * p
    ensures FitsSigned(Sixteen, Signed16(x) - Signed16(y) - borrow) ==
            !Overflows(WithTop(a, x, p) - WithTop(b, y, p), 0x1_0000 * p)
  {
    hide FitsSigned, Overflows;
    var top := Signed16(x) - Signed16(y) - borrow;
    SignedTop(x, p);
    SignedTop(y, p);
    Distribute(Signed16(x), Signed16(y), borrow, p);
    assert WithTop(a, x, p) - WithTop(b, y, p) == rest + top * p;
    TopDecides(top, p, rest);
  }

  lemma Distribute(x: int, y: int, z: int, p: nat)
    ensures (x - y - z) * p == x * p - y * p - z * p
  {
  }

  lemma SignedTop(x: u16, p: nat)
    ensures Signed16(x) * p == x * p - if x >= 0x8000 then 0x1_0000 * p else 0
  {
  }

  lemma TopDecides(top: int, p: nat, rest: nat)
    requires rest < p
    ensures FitsSigned(Sixteen, top) == !Overflows(rest + top * p, 0x1_0000 * p)
  {
    if top >= 0x8000 {
      MulMono(0x8000, top, p);
    } else if top < -0x8000 {
      MulMono(top, -0x8001, p);
    } else {
      MulMono(top, 0x7FFF, p);
      MulMono(-0x8000, top, p);
    }
  }

  // ---- rotation

  /** LDA a, ROL A, STA d. */
  function RolWord(s: Machine, a: u32, d: u32, junk: u32): Machine {
    var s := Execute(s, LDA, Effective(SimpleAddress, a));
    var s := Execute(s, ROL, Effective(AccumulatorOperand, junk));
    Execute(s, STA, Effective(SimpleAddress, d))
  }

  function RolChain(s: Machine, a: u32, d: u32, n: nat, junk: u32): Machine
    requires a + 2 * n < 0x1_0000_0000 && d + 2 * n < 0x1_0000_0000
  {
    if n == 0 then s
    else RolWord(RolChain(s, a, d, n - 1, junk), a + 2 * (n - 1), d + 2 * (n - 1), junk)
  }

  lemma RolExecuted(s: Machine, junk: u32)
    requires s.r.acc.len == Sixteen
    ensures var t := Execute(s, ROL, Effective(AccumulatorOperand, junk)); var x := s.r.acc.value;
            && t.m == s.m && t.r.acc == Reg(Sixteen, Trunc16(2 * x + CarryIn(s.r))) && t.r.p.c == (x >= 0x8000)
  {
    hide Execute;
    ExecuteRol(s, Effective(AccumulatorOperand, junk));
  }

  lemma RolWordMeaning(s: Machine, a: u32, d: u32, ca: nat, cd: nat, n: nat, k: nat, junk: u32)
    requires |s.m.wram| == WRAM_SIZE && s.r.acc.len == Sixteen && k < n
    requires Region(a, ca, n) && Region(d, cd, n)
    ensures var t := RolWord(s, a + 2 * k, d + 2 * k, junk);
            var v := t.r.acc.value;
            && t.m == s.m.(wram := PutWord(s.m.wram, cd + 2 * k, v)) && t.r.acc.len == Sixteen
            && v == 2 * WordIn(s.m.wram, ca + 2 * k) + CarryIn(s.r) - 0x1_0000 * CarryIn(t.r)
  {
    hide Execute, ReadWord, Reaches, PutWord, WordIn;
    LdaWord(s, a + 2 * k);
    RegionWord(s.m, a, ca, n, k);
    var s1 := Execute(s, LDA, Effective(SimpleAddress, a + 2 * k));
    RolExecuted(s1, junk);
    var s2 := Execute(s1, ROL, Effective(AccumulatorOperand, junk));
    StaRegion(s2, d, cd, n, k);
  }

  /** LDA/ROL A/STA over n words: twice the value plus the carry, the lost bit in C. */
  lemma {:induction false} MultiwordRotation(s: Machine, a: u32, d: u32, ca: nat, cd: nat, n: nat, k: nat, junk: u32)
    requires |s.m.wram| == WRAM_SIZE && s.r.acc.len == Sixteen && k <= n
    requires Region(a, ca, n) && Region(d, cd, n) && NotOvertaken(ca, cd, n)
    ensures var t := RolChain(s, a, d, k, junk);
            && Progress(s, t, cd, k)
            && Number(t.m.wram, cd, k) + CarryIn(t.r) * Pow(k) == 2 * Number(s.m.wram, ca, k) + CarryIn(s.r)
    decreases k
  {
    hide RolWord, Reaches, WordIn;
    if k > 0 {
      var j := k - 1;
      var t := RolChain(s, a, d, j, junk);
      MultiwordRotation(s, a, d, ca, cd, n, j, junk);
      RolWordMeaning(t, a, d, ca, cd, n, j, junk);
      SourceUntouched(s, t, ca, cd, n, j);
      var u := RolWord(t, a + 2 * j, d + 2 * j, junk);
      PutNumber(s, t, cd, j, u.r.acc.value);
      var x := WordIn(s.m.wram, ca + 2 * j);
      CarryStep(u.r.acc.value, x, CarryIn(t.r), CarryIn(u.r), Pow(j));
    }
  }

  lemma CarryStep(v: int, x: int, carryIn: int, carryOut: int, p: nat)
    requires v == 2 * x + carryIn - 0x1_0000 * carryOut
    ensures v * p + carryOut * (0x1_0000 * p) == 2 * (x * p) + carryIn * p
  {
    BorrowStep(v, 2 * x, -carryIn, 0, -carryOut, p);
  }
}
