/** The multiword programs against the assertions of the bus. */
module MultiwordRanges {
  import opened Bytes
  import opened BusMemory
  import opened CpuRegisters
  import opened CpuMachine
  import opened Opcodes
  import opened AddressingModes
  import opened AddressResolver
  import opened CpuCore
  import opened Mnemonics
  import opened ProcessorModel
  import opened GuestRanges
  import Multiword
  import MultiwordCode

  predicate WordPresent(m: Memory, addr: u32) { InRange(m, addr) && InRange(m, Trunc32(addr + 1)) }

  lemma RegionPresent(m: Memory, addr: u32, c: nat, n: nat, k: nat)
    requires Multiword.Region(addr, c, n) && |m.wram| == AddrDecoder.WRAM_SIZE && k < n
    ensures WordPresent(m, addr + 2 * k)
  {
    hide AddrDecoder.CellOf;
    assert Multiword.Reaches(addr, c, 2 * k) && Multiword.Reaches(addr, c, 2 * k + 1);
  }

  predicate OnWords(mne: Mnemonic) { mne == LDA || mne == SBC || mne == STA }

  lemma WordProceeds(s: Machine, mne: Mnemonic, addr: u32)
    requires OnWords(mne) && WordPresent(s.m, addr)
    ensures Proceeds(s, mne, Effective(SimpleAddress, addr))
  {
    hide Proceeds, InRange;
    var eff := Effective(SimpleAddress, addr);
    if mne == LDA {
      MayLda(s, eff);
    } else if mne == SBC {
      MaySbc(s, eff);
    } else {
      MaySta(s, eff);
    }
  }

  lemma NotIndirect(s: Machine, operand: u32)
    ensures MayResolve(s, Mode.Absolute, operand) && MayResolve(s, Accumulator, operand)
  {
  }

  /** An instruction of the chain with an absolute address. */
  lemma AbsoluteInRange(s: Machine, start: u16, code: seq<u8>, k: nat, word: u8, mne: Mnemonic, address: u16, junk: u32)
    requires Ops(word) == Opcode(mne, Mode.Absolute) && OnWords(mne) && MultiwordCode.AtCode(s, start, code, k)
    requires k + 3 <= |code| && code[k..k + 3] == MultiwordCode.AbsoluteCode(word, address)
    requires Present(s.m, start, |code|) && WordPresent(s.m, s.r.DataBank() + address)
    ensures TurnInRange(s, junk)
  {
    hide Prefetch, MayPrefetch, MayResolve, Proceeds, Resolve, Present, InRange, Ops, Holds, WordPresent;
    hide MultiwordCode.AbsoluteCode;
    MultiwordCode.AbsoluteFetched(s, start, code, k, word, mne, address);
    PrefetchPresent(s, start, |code|, k);
    var c := Prefetch(s);
    AbsoluteResolves(c.s, mne, address, junk);
    NotIndirect(c.s, address);
    WordProceeds(c.s, mne, s.r.DataBank() + address);
  }

  lemma RolInRange(s: Machine, start: u16, code: seq<u8>, k: nat, junk: u32)
    requires MultiwordCode.AtCode(s, start, code, k) && k < |code| && code[k] == 0x2A && Present(s.m, start, |code|)
    ensures TurnInRange(s, junk)
  {
    MultiwordCode.ProgramOpcodes();
    hide Prefetch, MayPrefetch, MayResolve, Proceeds, Resolve, Present, InRange, Ops, Holds;
    MultiwordCode.RolFetched(s, start, code, k);
    PrefetchPresent(s, start, |code|, k);
    var c := Prefetch(s);
    MultiwordCode.AccumulatorResolves(c.s, 0, junk);
    NotIndirect(c.s, 0);
    MayRol(c.s, Effective(AccumulatorOperand, junk));
  }

  // ---- the three instructions on a word

  /** At offset k of code that is there. */
  predicate Ready(s: Machine, start: u16, code: seq<u8>) {
    MultiwordCode.Runs(s, start, code) && Present(s.m, start, |code|)
  }

  lemma ReadyAt(s: Machine, start: u16, code: seq<u8>, k: nat)
    requires Ready(s, start, code)
    ensures var t := MultiwordCode.At(s, start, k);
            MultiwordCode.AtCode(t, start, code, k) && t.m == s.m && t.r.dbr == s.r.dbr
  {
    hide Holds, Present;
  }

  /** A load or subtraction on the way: in range, and ready for the next instruction in the same memory. */
  lemma AbsoluteOn(s: Machine, start: u16, code: seq<u8>, k: nat, word: u8, mne: Mnemonic, address: u16, junk: u32)
    requires Ops(word) == Opcode(mne, Mode.Absolute) && OnWords(mne) && Ready(s, start, code)
    requires k + 3 <= |code| && code[k..k + 3] == MultiwordCode.AbsoluteCode(word, address)
    requires WordPresent(s.m, s.r.DataBank() + address)
    ensures TurnInRange(MultiwordCode.At(s, start, k), junk)
    ensures var t := MultiwordCode.Absolutely(s, mne, address);
            && Turn(MultiwordCode.At(s, start, k), junk) == MultiwordCode.At(t, start, k + 3)
            && (mne != STA ==> t.m == s.m && t.r.dbr == s.r.dbr && Ready(t, start, code))
  {
    hide TurnInRange, Turn, Ops, Holds, Present, WordPresent, MultiwordCode.AbsoluteCode, MultiwordCode.Absolutely;
    hide MultiwordCode.At, MultiwordCode.AtCode;
    ReadyAt(s, start, code, k);
    AbsoluteInRange(MultiwordCode.At(s, start, k), start, code, k, word, mne, address, junk);
    MultiwordCode.AbsoluteAt(s, start, code, k, word, mne, address, junk);
  }

  /** Three turns in range. */
  predicate ThreeInRange(s: Machine, i: u32, j: u32, l: u32) {
    TurnInRange(s, i) && TurnInRange(Turn(s, i), j) && TurnInRange(Turn(Turn(s, i), j), l)
  }

  lemma OneOfThree(s: Machine, junks: seq<u32>, r: nat)
    requires |junks| == 3 && r < 3 && ThreeInRange(s, junks[0], junks[1], junks[2])
    ensures TurnInRange(Turns(s, junks[..r]), junks[r])
  {
    hide Turn, TurnInRange;
    FirstTurns(s, junks);
  }

  /** The k-th words behind three 16-bit addresses in the data bank. */
  predicate WordsPresent(s: Machine, a: nat, b: nat, d: nat, k: nat) {
    && a + 2 * k < 0x1_0000 && b + 2 * k < 0x1_0000 && d + 2 * k < 0x1_0000
    && WordPresent(s.m, s.r.DataBank() + (a + 2 * k)) && WordPresent(s.m, s.r.DataBank() + (b + 2 * k))
    && WordPresent(s.m, s.r.DataBank() + (d + 2 * k))
  }

  /** The turns on the k-th word of the subtraction. */
  lemma SubWordInRange(s: Machine, start: u16, code: seq<u8>, a: nat, b: nat, d: nat, k: nat, i: u32, j: u32, l: u32)
    requires WordsPresent(s, a, b, d, k) && Ready(s, start, code)
    requires 9 * k + 9 <= |code| && code[9 * k..9 * k + 9] == MultiwordCode.SubWordCode(a, b, d, k)
    ensures ThreeInRange(MultiwordCode.At(s, start, 9 * k), i, j, l)
  {
    hide TurnInRange, Turn, Ops, Ready, WordPresent, MultiwordCode.AbsoluteCode, MultiwordCode.SubWordCode;
    hide MultiwordCode.Absolutely, MultiwordCode.At;
    MultiwordCode.ProgramOpcodes();
    MultiwordCode.SubWordParts(code, a, b, d, k);
    var o := 9 * k;
    AbsoluteOn(s, start, code, o, 0xAD, LDA, a + 2 * k, i);
    var s1 := MultiwordCode.Absolutely(s, LDA, a + 2 * k);
    AbsoluteOn(s1, start, code, o + 3, 0xED, SBC, b + 2 * k, j);
    var s2 := MultiwordCode.Absolutely(s1, SBC, b + 2 * k);
    AbsoluteOn(s2, start, code, o + 6, 0x8D, STA, d + 2 * k, l);
  }

  /** The chain's machine after k words is ready for the next. */
  lemma ChainReady(s: Machine, t: Machine, start: u16, code: seq<u8>, cd: nat, k: nat)
    requires |s.m.wram| == AddrDecoder.WRAM_SIZE && cd + 2 * k <= AddrDecoder.WRAM_SIZE
    requires Multiword.Progress(s, t, cd, k) && MultiwordCode.Runs(t, start, code) && Present(s.m, start, |code|)
    ensures Ready(t, start, code)
  {
    hide Holds, Present;
    RangeStays(s.m, t.m, start, |code|);
  }

  /** No step of the subtraction program fails an assertion, if the code is in memory. */
  lemma SubtractionStaysInRange(s: Machine, start: u16, a: nat, b: nat, d: nat, ca: nat, cb: nat, cd: nat, n: nat,
                                junks: seq<u32>, i: nat)
    requires |s.m.wram| == AddrDecoder.WRAM_SIZE && s.r.acc.len == Sixteen && |junks| == 3 * n && i < 3 * n
    requires a + 2 * n <= 0x1_0000 && b + 2 * n <= 0x1_0000 && d + 2 * n <= 0x1_0000
    requires MultiwordCode.AtCode(s, start, MultiwordCode.SubCode(a, b, d, n), 0)
    requires Present(s.m, start, 9 * n) && CodeOutside(start, 9 * n, cd, cd + 2 * n)
    requires var bank := s.r.DataBank();
             && Multiword.Region(bank + a, ca, n) && Multiword.Region(bank + b, cb, n)
             && Multiword.Region(bank + d, cd, n)
    requires Multiword.NotOvertaken(ca, cd, n) && Multiword.NotOvertaken(cb, cd, n)
    ensures TurnInRange(Turns(s, junks[..i]), junks[i])
  {
    hide TurnInRange, ThreeInRange, Turns, Holds, Present, CodeOutside, Multiword.SubChain;
    hide MultiwordCode.SubCode, MultiwordCode.SubWordCode, Ready;
    hide Multiword.NotOvertaken, Multiword.Number, Multiword.Pow, Multiword.Region, WordPresent, MultiwordCode.Runs;
    var k, r := i / 3, i % 3;
    var bank, code := s.r.DataBank(), MultiwordCode.SubCode(a, b, d, n);
    SubAtWord(s, start, a, b, d, ca, cb, cd, n, k, junks[..3 * k]);
    var t := Multiword.SubChain(s, bank + a, bank + b, bank + d, k);
    MultiwordCode.SubCodeAt(a, b, d, n, k);
    SubWordInRange(t, start, code, a, b, d, k, junks[3 * k], junks[3 * k + 1], junks[3 * k + 2]);
    OneOfThree(MultiwordCode.At(t, start, 9 * k), junks[3 * k..3 * k + 3], r);
    JoinTurns(s, junks, k, r);
  }

  /** The machine at the k-th word. */
  lemma SubAtWord(s: Machine, start: u16, a: nat, b: nat, d: nat, ca: nat, cb: nat, cd: nat, n: nat, k: nat,
                  junks: seq<u32>)
    requires |s.m.wram| == AddrDecoder.WRAM_SIZE && s.r.acc.len == Sixteen && k < n && |junks| == 3 * k
    requires a + 2 * n <= 0x1_0000 && b + 2 * n <= 0x1_0000 && d + 2 * n <= 0x1_0000
    requires MultiwordCode.AtCode(s, start, MultiwordCode.SubCode(a, b, d, n), 0)
    requires Present(s.m, start, 9 * n) && CodeOutside(start, 9 * n, cd, cd + 2 * n)
    requires var bank := s.r.DataBank();
             && Multiword.Region(bank + a, ca, n) && Multiword.Region(bank + b, cb, n)
             && Multiword.Region(bank + d, cd, n)
    requires Multiword.NotOvertaken(ca, cd, n) && Multiword.NotOvertaken(cb, cd, n)
    ensures var bank := s.r.DataBank();
            var t := Multiword.SubChain(s, bank + a, bank + b, bank + d, k);
            && Turns(s, junks) == MultiwordCode.At(t, start, 9 * k) && t.r.dbr == s.r.dbr
            && Ready(t, start, MultiwordCode.SubCode(a, b, d, n)) && WordsPresent(t, a, b, d, k)
  {
    hide Turns, Holds, Present, CodeOutside, MultiwordCode.SubCode, Multiword.SubChain, Multiword.NotOvertaken, Ready;
    hide Multiword.Number, Multiword.Pow, Multiword.Reaches, WordPresent;
    var bank := s.r.DataBank();
    assert s == MultiwordCode.At(s, start, 0);
    MultiwordCode.SubTurns(s, start, a, b, d, ca, cb, cd, n, k, junks);
    Multiword.SubChainMeaning(s, bank + a, bank + b, bank + d, ca, cb, cd, n, k);
    var t := Multiword.SubChain(s, bank + a, bank + b, bank + d, k);
    ChainReady(s, t, start, MultiwordCode.SubCode(a, b, d, n), cd, k);
    RegionPresent(t.m, bank + a, ca, n, k);
    RegionPresent(t.m, bank + b, cb, n, k);
    RegionPresent(t.m, bank + d, cd, n, k);
  }

  lemma JoinTurns(s: Machine, junks: seq<u32>, k: nat, r: nat)
    requires 3 * k + 3 <= |junks| && r < 3
    ensures var three := junks[3 * k..3 * k + 3];
            Turns(s, junks[..3 * k + r]) == Turns(Turns(s, junks[..3 * k]), three[..r]) && junks[3 * k + r] == three[r]
  {
    hide Turns;
    var three := junks[3 * k..3 * k + 3];
    TurnsConcat(s, junks[..3 * k], three[..r]);
    assert junks[..3 * k + r] == junks[..3 * k] + three[..r];
  }

  // ---- the rotation

  /** The ROL on the way: in range, and ready for the next instruction in the same memory. */
  lemma RolOn(s: Machine, start: u16, code: seq<u8>, k: nat, junk: u32, other: u32)
    requires Ready(s, start, code) && k < |code| && code[k] == 0x2A
    ensures TurnInRange(MultiwordCode.At(s, start, k), junk)
    ensures var t := Instructions.Execute(s, ROL, Effective(AccumulatorOperand, other));
            && Turn(MultiwordCode.At(s, start, k), junk) == MultiwordCode.At(t, start, k + 1)
            && t.m == s.m && t.r.dbr == s.r.dbr && Ready(t, start, code)
  {
    hide TurnInRange, Turn, Holds, Present, Instructions.Execute, MultiwordCode.At, MultiwordCode.AtCode;
    ReadyAt(s, start, code, k);
    RolInRange(MultiwordCode.At(s, start, k), start, code, k, junk);
    MultiwordCode.RolAt(s, start, code, k, junk, other);
    MultiwordCode.KeepsBanks(s, ROL, Effective(AccumulatorOperand, other));
  }

  lemma RolWordInRange(s: Machine, start: u16, code: seq<u8>, a: nat, d: nat, k: nat, i: u32, j: u32, l: u32)
    requires WordsPresent(s, a, a, d, k) && Ready(s, start, code)
    requires 7 * k + 7 <= |code| && code[7 * k..7 * k + 7] == MultiwordCode.RolWordCode(a, d, k)
    ensures ThreeInRange(MultiwordCode.At(s, start, 7 * k), i, j, l)
  {
    hide TurnInRange, Turn, Ops, Ready, WordPresent, MultiwordCode.AbsoluteCode, MultiwordCode.RolWordCode;
    hide MultiwordCode.Absolutely, MultiwordCode.At, Instructions.Execute;
    MultiwordCode.ProgramOpcodes();
    MultiwordCode.RolWordParts(code, a, d, k);
    var o := 7 * k;
    AbsoluteOn(s, start, code, o, 0xAD, LDA, a + 2 * k, i);
    var s1 := MultiwordCode.Absolutely(s, LDA, a + 2 * k);
    RolOn(s1, start, code, o + 3, j, 0);
    var s2 := Instructions.Execute(s1, ROL, Effective(AccumulatorOperand, 0));
    AbsoluteOn(s2, start, code, o + 4, 0x8D, STA, d + 2 * k, l);
  }

  lemma RolAtWord(s: Machine, start: u16, a: nat, d: nat, ca: nat, cd: nat, n: nat, k: nat, junks: seq<u32>)
    requires |s.m.wram| == AddrDecoder.WRAM_SIZE && s.r.acc.len == Sixteen && k < n && |junks| == 3 * k
    requires a + 2 * n <= 0x1_0000 && d + 2 * n <= 0x1_0000
    requires MultiwordCode.AtCode(s, start, MultiwordCode.RolCode(a, d, n), 0)
    requires Present(s.m, start, 7 * n) && CodeOutside(start, 7 * n, cd, cd + 2 * n)
    requires var bank := s.r.DataBank(); Multiword.Region(bank + a, ca, n) && Multiword.Region(bank + d, cd, n)
    requires Multiword.NotOvertaken(ca, cd, n)
    ensures var bank := s.r.DataBank();
            var t := Multiword.RolChain(s, bank + a, bank + d, k, 0);
            && Turns(s, junks) == MultiwordCode.At(t, start, 7 * k) && t.r.dbr == s.r.dbr
            && Ready(t, start, MultiwordCode.RolCode(a, d, n)) && WordsPresent(t, a, a, d, k)
  {
    hide Turns, Holds, Present, CodeOutside, MultiwordCode.RolCode, Multiword.RolChain, Multiword.NotOvertaken, Ready;
    hide Multiword.Number, Multiword.Pow, Multiword.Reaches, WordPresent;
    var bank := s.r.DataBank();
    assert s == MultiwordCode.At(s, start, 0);
    MultiwordCode.RolTurns(s, start, a, d, ca, cd, n, k, junks, 0);
    Multiword.MultiwordRotation(s, bank + a, bank + d, ca, cd, n, k, 0);
    var t := Multiword.RolChain(s, bank + a, bank + d, k, 0);
    ChainReady(s, t, start, MultiwordCode.RolCode(a, d, n), cd, k);
    RegionPresent(t.m, bank + a, ca, n, k);
    RegionPresent(t.m, bank + d, cd, n, k);
  }

  /** Nor does any of the rotation program. */
  lemma RotationStaysInRange(s: Machine, start: u16, a: nat, d: nat, ca: nat, cd: nat, n: nat, junks: seq<u32>, i: nat)
    requires |s.m.wram| == AddrDecoder.WRAM_SIZE && s.r.acc.len == Sixteen && |junks| == 3 * n && i < 3 * n
    requires a + 2 * n <= 0x1_0000 && d + 2 * n <= 0x1_0000
    requires MultiwordCode.AtCode(s, start, MultiwordCode.RolCode(a, d, n), 0)
    requires Present(s.m, start, 7 * n) && CodeOutside(start, 7 * n, cd, cd + 2 * n)
    requires var bank := s.r.DataBank(); Multiword.Region(bank + a, ca, n) && Multiword.Region(bank + d, cd, n)
    requires Multiword.NotOvertaken(ca, cd, n)
    ensures TurnInRange(Turns(s, junks[..i]), junks[i])
  {
    hide TurnInRange, ThreeInRange, Turns, Holds, Present, CodeOutside, Multiword.RolChain;
    hide MultiwordCode.RolCode, MultiwordCode.RolWordCode, Ready;
    hide Multiword.NotOvertaken, Multiword.Number, Multiword.Pow, Multiword.Region, WordPresent, MultiwordCode.Runs;
    var k, r := i / 3, i % 3;
    var bank, code := s.r.DataBank(), MultiwordCode.RolCode(a, d, n);
    RolAtWord(s, start, a, d, ca, cd, n, k, junks[..3 * k]);
    var t := Multiword.RolChain(s, bank + a, bank + d, k, 0);
    MultiwordCode.RolCodeAt(a, d, n, k);
    RolWordInRange(t, start, code, a, d, k, junks[3 * k], junks[3 * k + 1], junks[3 * k + 2]);
    OneOfThree(MultiwordCode.At(t, start, 7 * k), junks[3 * k..3 * k + 3], r);
    JoinTurns(s, junks, k, r);
  }
}
