/** The chains of Multiword as guest programs: what their bytes do when fetched and executed. */
module MultiwordCode {
  import opened Bytes
  import opened AddrDecoder
  import opened CpuRegisters
  import opened CpuMachine
  import opened Opcodes
  import opened AddressingModes
  import opened Instructions
  import opened CpuCore
  import opened Multiword

  // ---- single instructions

  function WithPc(s: Machine, pc: u16): Machine { s.WithRegs(s.r.(pc := pc)) }

  /** An opcode with an absolute address. */
  function AbsoluteCode(word: u8, address: u16): (code: seq<u8>)
    ensures |code| == 3
  {
    [word, Low(address), High(address)]
  }

  predicate Ignores(mne: Mnemonic) { mne == LDA || mne == SBC || mne == STA || mne == ROL }

  lemma FetchIgnoresPc(s: Machine, eff: Effective, size: nat, pc: u16)
    ensures Fetch(WithPc(s, pc), eff, size) == Fetch(s, eff, size)
  {
  }

  lemma ComputeIgnoresPc(s: Machine, eff: Effective, pc: u16)
    ensures Sbc(WithPc(s, pc), eff) == WithPc(Sbc(s, eff), pc)
    ensures Rol(WithPc(s, pc), eff) == WithPc(Rol(s, eff), pc)
  {
    FetchIgnoresPc(s, eff, SizeOf(s.r.acc.len), pc);
    hide Fetch, Low, Word, Signed8, Signed16, Top, Trunc8, Trunc16;
  }

  /** The program counter has no part in what these instructions do. */
  lemma ExecuteIgnoresPc(s: Machine, mne: Mnemonic, eff: Effective, pc: u16)
    requires Ignores(mne)
    ensures Execute(WithPc(s, pc), mne, eff) == WithPc(Execute(s, mne, eff), pc)
  {
    FetchIgnoresPc(s, eff, SizeOf(s.r.acc.len), pc);
    ComputeIgnoresPc(s, eff, pc);
    hide Execute, Fetch, Sbc, Rol, BusMemory.Write, Low, High, Word, Signed8, Signed16;
    var u := WithPc(s, pc);
    if mne == LDA {
      ExecuteLda(s, eff);
      ExecuteLda(u, eff);
    } else if mne == SBC {
      ExecuteSbc(s, eff);
      ExecuteSbc(u, eff);
    } else if mne == STA {
      ExecuteSta(s, eff);
      ExecuteSta(u, eff);
    } else {
      ExecuteRol(s, eff);
      ExecuteRol(u, eff);
    }
  }

  lemma ProgramOpcodes()
    ensures Ops(0xAD) == Opcode(LDA, Absolute) && Ops(0xED) == Opcode(SBC, Absolute)
    ensures Ops(0x8D) == Opcode(STA, Absolute) && Ops(0x2A) == Opcode(ROL, Accumulator)
  {
  }

  /** The processor at an offset of a piece of code in bank 0. */
  predicate AtCode(s: Machine, start: u16, code: seq<u8>, k: nat) {
    s.r.pbr == 0 && s.r.pc == Trunc16(start + k) && Holds(s.m, start, code)
  }

  lemma AbsoluteFetched(s: Machine, start: u16, code: seq<u8>, k: nat, word: u8, mne: Mnemonic, address: u16)
    requires Ops(word) == Opcode(mne, Absolute) && AtCode(s, start, code, k)
    requires k + 3 <= |code| && code[k..k + 3] == AbsoluteCode(word, address)
    ensures Prefetch(s).cur == Instruction(word, Opcode(mne, Absolute), 2, address)
    ensures Prefetch(s).s == WithPc(s, Trunc16(start + (k + 3)))
  {
    hide Prefetch, Ops, Holds, LittleEndian, Power256, Low, High;
    SmallOperands(address, 0);
    assert code[k..k + 3] == [word] + LittleEndian(address, 2);
    FetchWithin(s, start, code, k, word, address);
  }

  /** Fetching and executing an instruction with an absolute address. */
  lemma AbsoluteTurn(s: Machine, start: u16, code: seq<u8>, k: nat, word: u8, mne: Mnemonic, address: u16, junk: u32)
    requires Ops(word) == Opcode(mne, Absolute) && Ignores(mne) && AtCode(s, start, code, k)
    requires k + 3 <= |code| && code[k..k + 3] == AbsoluteCode(word, address)
    ensures Turn(s, junk) ==
            WithPc(Execute(s, mne, Effective(SimpleAddress, s.r.DataBank() + address)), Trunc16(start + (k + 3)))
  {
    hide Execute, Resolve, Prefetch, Ops, AtCode, AbsoluteCode;
    AbsoluteFetched(s, start, code, k, word, mne, address);
    var c := Prefetch(s);
    AbsoluteResolves(c.s, mne, address, junk);
    ExecuteIgnoresPc(s, mne, Effective(SimpleAddress, s.r.DataBank() + address), c.s.r.pc);
  }

  lemma RolIgnoresJunk(s: Machine, junk: u32, other: u32)
    ensures Execute(s, ROL, Effective(AccumulatorOperand, junk)) ==
            Execute(s, ROL, Effective(AccumulatorOperand, other))
  {
    hide Execute;
    ExecuteRol(s, Effective(AccumulatorOperand, junk));
    ExecuteRol(s, Effective(AccumulatorOperand, other));
  }

  lemma AccumulatorResolves(s: Machine, operand: u32, junk: u32)
    ensures Resolve(s, ROL, Accumulator, operand, junk) == Effective(AccumulatorOperand, junk)
  {
  }

  /** None of them changes a bank register or, but for the store, memory. */
  lemma KeepsBanks(s: Machine, mne: Mnemonic, eff: Effective)
    requires Ignores(mne)
    ensures var t := Execute(s, mne, eff); t.r.dbr == s.r.dbr && t.r.pbr == s.r.pbr && (mne != STA ==> t.m == s.m)
  {
    hide Execute, Fetch, BusMemory.Write, Top;
    if mne == LDA {
      ExecuteLda(s, eff);
    } else if mne == SBC {
      ExecuteSbc(s, eff);
    } else if mne == STA {
      ExecuteSta(s, eff);
    } else {
      ExecuteRol(s, eff);
    }
  }

  /** The machine `s`, but at offset k of the code. */
  predicate Runs(s: Machine, start: u16, code: seq<u8>) { s.r.pbr == 0 && Holds(s.m, start, code) }

  function At(s: Machine, start: u16, k: nat): Machine { WithPc(s, Trunc16(start + k)) }

  /** From offset k one instruction leads to `t` at offset `next`, in the same banks. */
  predicate Leads(s: Machine, t: Machine, start: u16, k: nat, next: nat, junk: u32) {
    Turn(At(s, start, k), junk) == At(t, start, next) && t.r.dbr == s.r.dbr && t.r.pbr == s.r.pbr
  }

  function Absolutely(s: Machine, mne: Mnemonic, address: u16): Machine {
    Execute(s, mne, Effective(SimpleAddress, s.r.DataBank() + address))
  }

  /** One instruction with an absolute address, the counter aside. */
  lemma AbsoluteAt(s: Machine, start: u16, code: seq<u8>, k: nat, word: u8, mne: Mnemonic, address: u16, junk: u32)
    requires Ops(word) == Opcode(mne, Absolute) && Ignores(mne) && Runs(s, start, code)
    requires k + 3 <= |code| && code[k..k + 3] == AbsoluteCode(word, address)
    ensures var t := Absolutely(s, mne, address);
            Leads(s, t, start, k, k + 3, junk) && (mne != STA ==> t.m == s.m)
  {
    hide Execute, Turn, Ops, Holds, AbsoluteCode;
    var eff := Effective(SimpleAddress, s.r.DataBank() + address);
    AbsoluteTurn(At(s, start, k), start, code, k, word, mne, address, junk);
    ExecuteIgnoresPc(s, mne, eff, Trunc16(start + k));
    KeepsBanks(s, mne, eff);
  }

  lemma LdaAt(s: Machine, start: u16, code: seq<u8>, k: nat, address: u16, junk: u32)
    requires Runs(s, start, code) && k + 3 <= |code| && code[k..k + 3] == AbsoluteCode(0xAD, address)
    ensures var t := Absolutely(s, LDA, address); Leads(s, t, start, k, k + 3, junk) && Runs(t, start, code)
  {
    hide Absolutely, Leads, Holds, AbsoluteCode;
    ProgramOpcodes();
    AbsoluteAt(s, start, code, k, 0xAD, LDA, address, junk);
    LeadsOn(s, Absolutely(s, LDA, address), start, k, k + 3, junk, code);
  }

  lemma SbcAt(s: Machine, start: u16, code: seq<u8>, k: nat, address: u16, junk: u32)
    requires Runs(s, start, code) && k + 3 <= |code| && code[k..k + 3] == AbsoluteCode(0xED, address)
    ensures var t := Absolutely(s, SBC, address); Leads(s, t, start, k, k + 3, junk) && Runs(t, start, code)
  {
    hide Absolutely, Leads, Holds, AbsoluteCode;
    ProgramOpcodes();
    AbsoluteAt(s, start, code, k, 0xED, SBC, address, junk);
    LeadsOn(s, Absolutely(s, SBC, address), start, k, k + 3, junk, code);
  }

  lemma StaAt(s: Machine, start: u16, code: seq<u8>, k: nat, address: u16, junk: u32)
    requires Runs(s, start, code) && k + 3 <= |code| && code[k..k + 3] == AbsoluteCode(0x8D, address)
    ensures Leads(s, Absolutely(s, STA, address), start, k, k + 3, junk)
  {
    hide Absolutely, Leads, Holds, AbsoluteCode;
    ProgramOpcodes();
    AbsoluteAt(s, start, code, k, 0x8D, STA, address, junk);
  }

  lemma LeadsOn(s: Machine, t: Machine, start: u16, k: nat, next: nat, junk: u32, code: seq<u8>)
    requires Runs(s, start, code) && Leads(s, t, start, k, next, junk) && t.m == s.m
    ensures Runs(t, start, code)
  {
    hide Turn, Holds;
  }

  lemma RolFetched(s: Machine, start: u16, code: seq<u8>, k: nat)
    requires AtCode(s, start, code, k) && k < |code| && code[k] == 0x2A
    requires Ops(0x2A) == Opcode(ROL, Accumulator)
    ensures Prefetch(s).cur == Instruction(0x2A, Opcode(ROL, Accumulator), 0, 0)
    ensures Prefetch(s).s == WithPc(s, Trunc16(start + (k + 1)))
  {
    hide Prefetch, Ops, Holds, LittleEndian, Power256, BusMemory.Read;
    SmallOperands(0, 0);
    assert code[k..k + 1] == [0x2A] + LittleEndian(0, 0);
    FetchWithin(s, start, code, k, 0x2A, 0);
  }

  lemma RolAt(s: Machine, start: u16, code: seq<u8>, k: nat, junk: u32, other: u32)
    requires Runs(s, start, code) && k < |code| && code[k] == 0x2A
    ensures var t := Execute(s, ROL, Effective(AccumulatorOperand, other));
            Leads(s, t, start, k, k + 1, junk) && Runs(t, start, code)
  {
    ProgramOpcodes();
    hide Execute, Resolve, Prefetch, Holds, Ops;
    var u := At(s, start, k);
    RolFetched(u, start, code, k);
    var c := Prefetch(u);
    AccumulatorResolves(c.s, 0, junk);
    ExecuteIgnoresPc(s, ROL, Effective(AccumulatorOperand, junk), c.s.r.pc);
    RolIgnoresJunk(s, junk, other);
    KeepsBanks(s, ROL, Effective(AccumulatorOperand, other));
  }

  /** The chains change nothing but the result words. */
  lemma OnlyResults(s: Machine, t: Machine, cd: nat, n: nat, k: nat)
    requires |s.m.wram| == WRAM_SIZE && cd + 2 * n <= WRAM_SIZE && k <= n && Progress(s, t, cd, k)
    ensures OnlyWramChanged(s.m, t.m, cd, cd + 2 * n)
  {
  }

  lemma {:induction false} LastThree(s: Machine, junks: seq<u32>)
    requires |junks| >= 3
    ensures var n := |junks| - 3;
            Turns(s, junks) == Turn(Turn(Turn(Turns(s, junks[..n]), junks[n]), junks[n + 1]), junks[n + 2])
  {
    hide Turn;
    var n := |junks| - 3;
    var t := Turns(s, junks[..n]);
    assert junks == junks[..n] + [junks[n], junks[n + 1], junks[n + 2]];
    TurnsConcat(s, junks[..n], [junks[n], junks[n + 1], junks[n + 2]]);
    ThreeTurns(t, junks[n], junks[n + 1], junks[n + 2]);
  }

  lemma ThreeTurns(s: Machine, i: u32, j: u32, k: u32)
    ensures Turns(s, [i, j, k]) == Turn(Turn(Turn(s, i), j), k)
  {
    hide Turn;
    assert [i, j, k][1..] == [j, k] && [j, k][1..] == [k] && [k][1..] == [];
    assert Turns(Turn(Turn(Turn(s, i), j), k), []) == Turn(Turn(Turn(s, i), j), k);
    assert Turns(Turn(Turn(s, i), j), [k]) == Turns(Turn(Turn(Turn(s, i), j), k), []);
    assert Turns(Turn(s, i), [j, k]) == Turns(Turn(Turn(s, i), j), [k]);
  }

  // ---- subtraction

  /** LDA a, SBC b, STA d on the k-th words. */
  function SubWordCode(a: nat, b: nat, d: nat, k: nat): (code: seq<u8>)
    requires a + 2 * k < 0x1_0000 && b + 2 * k < 0x1_0000 && d + 2 * k < 0x1_0000
    ensures |code| == 9
  {
    AbsoluteCode(0xAD, a + 2 * k) + AbsoluteCode(0xED, b + 2 * k) + AbsoluteCode(0x8D, d + 2 * k)
  }

  function SubCode(a: nat, b: nat, d: nat, n: nat): (code: seq<u8>)
    requires a + 2 * n <= 0x1_0000 && b + 2 * n <= 0x1_0000 && d + 2 * n <= 0x1_0000
    ensures |code| == 9 * n
  {
    if n == 0 then [] else SubCode(a, b, d, n - 1) + SubWordCode(a, b, d, n - 1)
  }

  lemma {:induction false} SubCodeAt(a: nat, b: nat, d: nat, n: nat, k: nat)
    requires a + 2 * n <= 0x1_0000 && b + 2 * n <= 0x1_0000 && d + 2 * n <= 0x1_0000 && k < n
    ensures SubCode(a, b, d, n)[9 * k..9 * k + 9] == SubWordCode(a, b, d, k)
  {
    hide SubWordCode;
    var shorter := SubCode(a, b, d, n - 1);
    if k < n - 1 {
      SubCodeAt(a, b, d, n - 1, k);
      assert SubCode(a, b, d, n)[9 * k..9 * k + 9] == shorter[9 * k..9 * k + 9];
    }
  }

  /** Three instructions from offset k lead to `t` at offset `next`. */
  predicate LeadsInThree(s: Machine, t: Machine, start: u16, k: nat, next: nat, i: u32, j: u32, l: u32) {
    && Turn(Turn(Turn(At(s, start, k), i), j), l) == At(t, start, next)
    && t.r.dbr == s.r.dbr && t.r.pbr == s.r.pbr
  }

  lemma SubWordTurns(s: Machine, start: u16, code: seq<u8>, a: nat, b: nat, d: nat, k: nat, i: u32, j: u32, l: u32)
    requires a + 2 * k < 0x1_0000 && b + 2 * k < 0x1_0000 && d + 2 * k < 0x1_0000 && Runs(s, start, code)
    requires 9 * k + 9 <= |code| && code[9 * k..9 * k + 9] == SubWordCode(a, b, d, k)
    ensures var bank := s.r.DataBank();
            LeadsInThree(s, SubWord(s, bank + a + 2 * k, bank + b + 2 * k, bank + d + 2 * k),
                         start, 9 * k, 9 * k + 9, i, j, l)
  {
    hide Turn, Execute, At, SubWordCode, AbsoluteCode, Runs;
    SubWordParts(code, a, b, d, k);
    var o := 9 * k;
    LdaAt(s, start, code, o, a + 2 * k, i);
    var s1 := Absolutely(s, LDA, a + 2 * k);
    SbcAt(s1, start, code, o + 3, b + 2 * k, j);
    var s2 := Absolutely(s1, SBC, b + 2 * k);
    StaAt(s2, start, code, o + 6, d + 2 * k, l);
  }

  lemma SubWordParts(code: seq<u8>, a: nat, b: nat, d: nat, k: nat)
    requires a + 2 * k < 0x1_0000 && b + 2 * k < 0x1_0000 && d + 2 * k < 0x1_0000
    requires 9 * k + 9 <= |code| && code[9 * k..9 * k + 9] == SubWordCode(a, b, d, k)
    ensures code[9 * k..9 * k + 3] == AbsoluteCode(0xAD, a + 2 * k)
    ensures code[9 * k + 3..9 * k + 6] == AbsoluteCode(0xED, b + 2 * k)
    ensures code[9 * k + 6..9 * k + 9] == AbsoluteCode(0x8D, d + 2 * k)
  {
    hide AbsoluteCode;
    var o, word := 9 * k, SubWordCode(a, b, d, k);
    SubSlice(code, o, 9, 0, 3);
    SubSlice(code, o, 9, 3, 6);
    SubSlice(code, o, 9, 6, 9);
    assert word[0..3] == AbsoluteCode(0xAD, a + 2 * k) && word[3..6] == AbsoluteCode(0xED, b + 2 * k);
    assert word[6..9] == AbsoluteCode(0x8D, d + 2 * k);
  }

  /** After k of n words: the chain's machine, the code as it was, the counter behind the k-th word. */
  predicate ChainAt(s: Machine, t: Machine, start: u16, code: seq<u8>, next: nat, junks: seq<u32>) {
    && Turns(At(s, start, 0), junks) == At(t, start, next)
    && t.r.dbr == s.r.dbr && Runs(t, start, code)
  }

  lemma ChainStep(s: Machine, t: Machine, u: Machine, start: u16, code: seq<u8>, k: nat, next: nat, junks: seq<u32>)
    requires |junks| >= 3 && ChainAt(s, t, start, code, k, junks[..|junks| - 3])
    requires var n := |junks| - 3; LeadsInThree(t, u, start, k, next, junks[n], junks[n + 1], junks[n + 2])
    requires Holds(u.m, start, code)
    ensures ChainAt(s, u, start, code, next, junks)
  {
    hide Turn, At, Turns, Holds;
    LastThree(At(s, start, 0), junks);
  }

  /** The whole program, word by word, is the chain; the code stays as it is. */
  lemma {:induction false} SubTurns(s: Machine, start: u16, a: nat, b: nat, d: nat, ca: nat, cb: nat, cd: nat, n: nat,
                                    k: nat, junks: seq<u32>)
    requires |s.m.wram| == WRAM_SIZE && s.r.acc.len == Sixteen && k <= n && |junks| == 3 * k
    requires a + 2 * n <= 0x1_0000 && b + 2 * n <= 0x1_0000 && d + 2 * n <= 0x1_0000
    requires Runs(s, start, SubCode(a, b, d, n)) && CodeOutside(start, 9 * n, cd, cd + 2 * n)
    requires var bank := s.r.DataBank(); Region(bank + a, ca, n) && Region(bank + b, cb, n) && Region(bank + d, cd, n)
    requires NotOvertaken(ca, cd, n) && NotOvertaken(cb, cd, n)
    ensures var bank := s.r.DataBank();
            ChainAt(s, SubChain(s, bank + a, bank + b, bank + d, k), start, SubCode(a, b, d, n), 9 * k, junks)
    decreases k
  {
    hide Turn, At, Holds, SubCode, SubWord, CodeOutside, Reaches, NotOvertaken, LeadsInThree, Number, Pow, Progress;
    var bank, code := s.r.DataBank(), SubCode(a, b, d, n);
    if k > 0 {
      var j := k - 1;
      SubTurns(s, start, a, b, d, ca, cb, cd, n, j, junks[..3 * j]);
      var t := SubChain(s, bank + a, bank + b, bank + d, j);
      SubCodeAt(a, b, d, n, j);
      SubWordTurns(t, start, code, a, b, d, j, junks[3 * j], junks[3 * j + 1], junks[3 * j + 2]);
      SubChainMeaning(s, bank + a, bank + b, bank + d, ca, cb, cd, n, k);
      var u := SubChain(s, bank + a, bank + b, bank + d, k);
      OnlyResults(s, u, cd, n, k);
      CodeHolds(s.m, u.m, start, code, cd, cd + 2 * n);
      ChainStep(s, t, u, start, code, 9 * j, 9 * k, junks);
    }
  }

  /**
   The guest program AD/ED/8D over n words at `start` in bank 0, run from its bytes with C set and A
   16 bits long: after 3n instructions the difference lies where it should, as the chain has it, and
   the counter stands behind the program.
   */
  lemma SubtractionProgram(s: Machine, start: u16, a: nat, b: nat, d: nat, ca: nat, cb: nat, cd: nat, n: nat,
                           junks: seq<u32>)
    requires |s.m.wram| == WRAM_SIZE && s.r.acc.len == Sixteen && s.r.p.c && 0 < n && |junks| == 3 * n
    requires a + 2 * n <= 0x1_0000 && b + 2 * n <= 0x1_0000 && d + 2 * n <= 0x1_0000
    requires AtCode(s, start, SubCode(a, b, d, n), 0) && CodeOutside(start, 9 * n, cd, cd + 2 * n)
    requires var bank := s.r.DataBank(); Region(bank + a, ca, n) && Region(bank + b, cb, n) && Region(bank + d, cd, n)
    requires NotOvertaken(ca, cd, n) && NotOvertaken(cb, cd, n)
    ensures var t := Turns(s, junks);
            && Run(Prefetch(s), junks) == Prefetch(t)
            && Subtracted(s, t, ca, cb, cd, n) && t.r.pc == Trunc16(start + 9 * n)
  {
    hide Turns, Holds, SubCode, SubChain, CodeOutside, Reaches, NotOvertaken, Number, Pow;
    hide SignedNumber, Overflows, Prefetch, Run;
    var bank := s.r.DataBank();
    RunIsTurns(s, junks);
    assert s == At(s, start, 0);
    SubTurns(s, start, a, b, d, ca, cb, cd, n, n, junks);
    MultiwordSubtraction(s, bank + a, bank + b, bank + d, ca, cb, cd, n);
  }

  // ---- rotation

  function RolWordCode(a: nat, d: nat, k: nat): (code: seq<u8>)
    requires a + 2 * k < 0x1_0000 && d + 2 * k < 0x1_0000
    ensures |code| == 7
  {
    AbsoluteCode(0xAD, a + 2 * k) + [0x2A] + AbsoluteCode(0x8D, d + 2 * k)
  }

  function RolCode(a: nat, d: nat, n: nat): (code: seq<u8>)
    requires a + 2 * n <= 0x1_0000 && d + 2 * n <= 0x1_0000
    ensures |code| == 7 * n
  {
    if n == 0 then [] else RolCode(a, d, n - 1) + RolWordCode(a, d, n - 1)
  }

  lemma {:induction false} RolCodeAt(a: nat, d: nat, n: nat, k: nat)
    requires a + 2 * n <= 0x1_0000 && d + 2 * n <= 0x1_0000 && k < n
    ensures RolCode(a, d, n)[7 * k..7 * k + 7] == RolWordCode(a, d, k)
  {
    hide RolWordCode;
    var shorter := RolCode(a, d, n - 1);
    if k < n - 1 {
      RolCodeAt(a, d, n - 1, k);
      assert RolCode(a, d, n)[7 * k..7 * k + 7] == shorter[7 * k..7 * k + 7];
    }
  }

  lemma RolWordParts(code: seq<u8>, a: nat, d: nat, k: nat)
    requires a + 2 * k < 0x1_0000 && d + 2 * k < 0x1_0000
    requires 7 * k + 7 <= |code| && code[7 * k..7 * k + 7] == RolWordCode(a, d, k)
    ensures code[7 * k..7 * k + 3] == AbsoluteCode(0xAD, a + 2 * k) && code[7 * k + 3] == 0x2A
    ensures code[7 * k + 4..7 * k + 7] == AbsoluteCode(0x8D, d + 2 * k)
  {
    hide AbsoluteCode;
    var o, word := 7 * k, RolWordCode(a, d, k);
    SubSlice(code, o, 7, 0, 3);
    SubSlice(code, o, 7, 4, 7);
    assert code[o + 3] == code[o..o + 7][3];
    assert word[0..3] == AbsoluteCode(0xAD, a + 2 * k) && word[4..7] == AbsoluteCode(0x8D, d + 2 * k);
  }

  lemma RolWordTurns(s: Machine, start: u16, code: seq<u8>, a: nat, d: nat, k: nat, i: u32, j: u32, l: u32, junk: u32)
    requires a + 2 * k < 0x1_0000 && d + 2 * k < 0x1_0000 && Runs(s, start, code)
    requires 7 * k + 7 <= |code| && code[7 * k..7 * k + 7] == RolWordCode(a, d, k)
    ensures var bank := s.r.DataBank();
            LeadsInThree(s, RolWord(s, bank + a + 2 * k, bank + d + 2 * k, junk), start, 7 * k, 7 * k + 7, i, j, l)
  {
    hide Turn, Execute, At, RolWordCode, AbsoluteCode, Runs;
    RolWordParts(code, a, d, k);
    var o := 7 * k;
    LdaAt(s, start, code, o, a + 2 * k, i);
    var s1 := Absolutely(s, LDA, a + 2 * k);
    RolAt(s1, start, code, o + 3, j, junk);
    var s2 := Execute(s1, ROL, Effective(AccumulatorOperand, junk));
    StaAt(s2, start, code, o + 4, d + 2 * k, l);
  }

  lemma {:induction false} RolTurns(s: Machine, start: u16, a: nat, d: nat, ca: nat, cd: nat, n: nat, k: nat,
                                    junks: seq<u32>, junk: u32)
    requires |s.m.wram| == WRAM_SIZE && s.r.acc.len == Sixteen && k <= n && |junks| == 3 * k
    requires a + 2 * n <= 0x1_0000 && d + 2 * n <= 0x1_0000
    requires Runs(s, start, RolCode(a, d, n)) && CodeOutside(start, 7 * n, cd, cd + 2 * n)
    requires var bank := s.r.DataBank(); Region(bank + a, ca, n) && Region(bank + d, cd, n)
    requires NotOvertaken(ca, cd, n)
    ensures var bank := s.r.DataBank();
            ChainAt(s, RolChain(s, bank + a, bank + d, k, junk), start, RolCode(a, d, n), 7 * k, junks)
    decreases k
  {
    hide Turn, At, Holds, RolCode, RolWord, CodeOutside, Reaches, NotOvertaken, LeadsInThree, Number, Pow, Progress;
    var bank, code := s.r.DataBank(), RolCode(a, d, n);
    if k > 0 {
      var j := k - 1;
      RolTurns(s, start, a, d, ca, cd, n, j, junks[..3 * j], junk);
      var t := RolChain(s, bank + a, bank + d, j, junk);
      RolCodeAt(a, d, n, j);
      RolWordTurns(t, start, code, a, d, j, junks[3 * j], junks[3 * j + 1], junks[3 * j + 2], junk);
      MultiwordRotation(s, bank + a, bank + d, ca, cd, n, k, junk);
      var u := RolChain(s, bank + a, bank + d, k, junk);
      OnlyResults(s, u, cd, n, k);
      CodeHolds(s.m, u.m, start, code, cd, cd + 2 * n);
      ChainStep(s, t, u, start, code, 7 * j, 7 * k, junks);
    }
  }

  /** The guest program AD/2A/8D over n words: twice the number plus the carry, the lost bit in C. */
  lemma RotationProgram(s: Machine, start: u16, a: nat, d: nat, ca: nat, cd: nat, n: nat, junks: seq<u32>)
    requires |s.m.wram| == WRAM_SIZE && s.r.acc.len == Sixteen && |junks| == 3 * n
    requires a + 2 * n <= 0x1_0000 && d + 2 * n <= 0x1_0000
    requires AtCode(s, start, RolCode(a, d, n), 0) && CodeOutside(start, 7 * n, cd, cd + 2 * n)
    requires var bank := s.r.DataBank(); Region(bank + a, ca, n) && Region(bank + d, cd, n)
    requires NotOvertaken(ca, cd, n)
    ensures var t := Turns(s, junks);
            && Run(Prefetch(s), junks) == Prefetch(t) && Progress(s, t, cd, n) && t.r.pc == Trunc16(start + 7 * n)
            && Number(t.m.wram, cd, n) + CarryIn(t.r) * Pow(n) == 2 * Number(s.m.wram, ca, n) + CarryIn(s.r)
  {
    hide Turns, Holds, RolCode, RolChain, CodeOutside, Reaches, NotOvertaken, Number, Pow, Prefetch, Run;
    var bank := s.r.DataBank();
    RunIsTurns(s, junks);
    assert s == At(s, start, 0);
    RolTurns(s, start, a, d, ca, cd, n, n, junks, 0);
    MultiwordRotation(s, bank + a, bank + d, ca, cd, n, n, 0);
  }
}
