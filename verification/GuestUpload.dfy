/**
 A guest program that uploads: its bytes, fetched and executed by the processor over $2140-$2143,
 interleaved with the APU thread access by access, are a sender that follows the protocol.
 */
module GuestUpload {
  import opened Bytes
  import opened AddrDecoder
  import opened BusMemory
  import opened CpuCore
  import opened Assembly
  import opened ApuProtocol
  import opened Upload
  import opened UploadTable

  const PORT0: u16 := 0x2140
  const PORT1: u16 := 0x2141
  const PORT2: u16 := 0x2142
  const PORT3: u16 := 0x2143

  // ---- the program

  /**
   Wait for the start-up bytes; then for each four-byte record of the table at `base` write ports 1, 2, 3
   and last the cookie, and wait for its echo, except after the last record.
   */
  function Program(base: u16, count: nat): (lines: seq<Line>)
    requires 0 < count && base + 4 * count <= 0x1_0000
    ensures |lines| == 25
  {
    [ LoadA(PORT0), CompareA(READY0), UnlessZero(0),
      LoadA(PORT1), CompareA(READY1), UnlessZero(3),
      LoadX(0),
      LoadAIndexed(base + 1), StoreA(PORT1),
      LoadAIndexed(base + 2), StoreA(PORT2),
      LoadAIndexed(base + 3), StoreA(PORT3),
      LoadAIndexed(base), StoreA(PORT0),
      CompareX(4 * (count - 1)), IfZero(24),
      CompareAWith(PORT0), UnlessZero(17),
      IncrementX, IncrementX, IncrementX, IncrementX, Always(7),
      Always(24) ]
  }

  // ---- the two parties together

  /** The processor with the memories behind its bus, and the APU thread. */
  datatype World = World(cpu: Cpu, apu: Receiver, apc: ApuPc)

  function PortsOf(bytes: seq<u8>): Snapshot
    requires |bytes| == 4
  {
    Snapshot(bytes[0], bytes[1], bytes[2], bytes[3])
  }

  function BytesOf(p: Snapshot): (bytes: seq<u8>)
    ensures |bytes| == 4 && PortsOf(bytes) == p
  {
    [p.port0, p.port1, p.port2, p.port3]
  }

  predicate FourPorts(m: Memory) { |m.input| == 4 && |m.output| == 4 }

  /** The APU's side of the world, as the system sees it. */
  function ApuSide(w: World): Sys
    requires FourPorts(w.cpu.s.m)
  {
    Sys(w.apu, w.apc, PortsOf(w.cpu.s.m.input), PortsOf(w.cpu.s.m.output), Ready0, 0, [])
  }

  function WithOutput(m: Memory, output: Snapshot): Memory { m.(output := BytesOf(output)) }

  /** One access, or decision, of the APU thread. */
  function ApuMove(w: World): World {
    if FourPorts(w.cpu.s.m) && |w.apu.ram| == RAM_SIZE then
      var t := ApuStep(ApuSide(w));
      World(w.cpu.(s := w.cpu.s.(m := WithOutput(w.cpu.s.m, t.output))), t.apu, t.apc)
    else w
  }

  /** One instruction of the processor. */
  ghost predicate CpuMoves(c: Cpu, c': Cpu) { exists junk: u32 :: c' == Step(c, junk) }

  ghost predicate WorldMoves(who: Party, w: World, w': World) {
    match who
    case Apu => w' == ApuMove(w)
    case Sender => CpuMoves(w.cpu, w'.cpu) && w' == w.(cpu := w'.cpu)
  }

  ghost predicate IsWorldRun(run: seq<World>, who: seq<Party>) {
    |run| == |who| + 1 && forall i :: 0 <= i < |who| ==> WorldMoves(who[i], run[i], run[i + 1])
  }

  // ---- what the run starts from and keeps

  /** The program at `start`, the table at `base`, for the script `msgs`. */
  datatype Setup = Setup(start: u16, base: u16, lines: seq<Line>, msgs: seq<Message>, table: seq<Snapshot>) {
    predicate Valid() {
      && WellFormed(msgs) && Encodes(msgs, table)
      && base + 4 * |msgs| <= 0x1_0000 && lines == Program(base, |msgs|)
    }

    function Last(): int { |msgs| - 1 }
  }

  /** The i-th byte from an address of bank 0 on is not a port. */
  predicate OffPorts(addr: u16, i: nat) { !CellOf(Trunc16(addr + i)).PortCell? }

  function RecordAt(m: Memory, addr: u16): Snapshot
    requires addr + 4 <= 0x1_0000
  {
    Snapshot(Read(m, addr), Read(m, addr + 1), Read(m, addr + 2), Read(m, addr + 3))
  }

  /** Code in bank 0, off the ports. */
  predicate CodeIn(m: Memory, start: u16, code: seq<u8>) {
    Holds(m, start, code) && forall i :: 0 <= i < |code| ==> OffPorts(start, i)
  }

  /** A table in bank 0, off the ports. */
  predicate TableIn(m: Memory, base: u16, table: seq<Snapshot>) {
    && base + 4 * |table| <= 0x1_0000
    && (forall i :: 0 <= i < 4 * |table| ==> OffPorts(base, i))
    && (forall k :: 0 <= k < |table| ==> RecordAt(m, base + 4 * k) == table[k])
  }

  predicate Layout(g: Setup, m: Memory) {
    && FourPorts(m) && CodeIn(m, g.start, Code(g.lines)) && TableIn(m, g.base, g.table)
    && Present(m, g.start, |Code(g.lines)|) && Present(m, g.base, 4 * |g.table|)
  }

  predicate SameButPorts(m: Memory, m': Memory) {
    m' == m.(input := m'.input, output := m'.output) && FourPorts(m')
  }

  lemma SameOffPorts(m: Memory, m': Memory, addr: u16, i: nat)
    requires SameButPorts(m, m') && OffPorts(addr, i)
    ensures Read(m', Trunc16(addr + i)) == Read(m, Trunc16(addr + i))
  {
    hide CellOf;
  }

  lemma CodeStays(m: Memory, m': Memory, start: u16, code: seq<u8>)
    requires SameButPorts(m, m') && CodeIn(m, start, code)
    ensures CodeIn(m', start, code)
  {
    hide BusMemory.Read, OffPorts, SameButPorts;
    forall i | 0 <= i < |code|
      ensures Read(m', Trunc16(start + i)) == code[i]
    {
      SameOffPorts(m, m', start, i);
    }
  }

  lemma TableStays(m: Memory, m': Memory, base: u16, table: seq<Snapshot>)
    requires SameButPorts(m, m') && TableIn(m, base, table)
    ensures TableIn(m', base, table)
  {
    hide BusMemory.Read, OffPorts, SameButPorts;
    forall k | 0 <= k < |table|
      ensures RecordAt(m', base + 4 * k) == table[k]
    {
      SameOffPorts(m, m', base, 4 * k);
      SameOffPorts(m, m', base, 4 * k + 1);
      SameOffPorts(m, m', base, 4 * k + 2);
      SameOffPorts(m, m', base, 4 * k + 3);
    }
  }

  /** Whatever the ports hold, code and table stay as they are. */
  lemma LayoutStays(g: Setup, m: Memory, m': Memory)
    requires Layout(g, m) && SameButPorts(m, m')
    ensures Layout(g, m')
  {
    CodeStays(m, m', g.start, Code(g.lines));
    TableStays(m, m', g.base, g.table);
    hide CodeIn, TableIn, Code, Present;
    RangeStays(m, m', g.start, |Code(g.lines)|);
    RangeStays(m, m', g.base, 4 * |g.table|);
  }

  lemma PortCells()
    ensures CellOf(PORT0) == PortCell(0) && CellOf(PORT1) == PortCell(1)
    ensures CellOf(PORT2) == PortCell(2) && CellOf(PORT3) == PortCell(3)
  {
  }

  // ---- where the sender is, read off the program

  /** The index register counts the records that are done, four bytes each. */
  predicate Indexes(v: View, k: int) { v.x == 4 * k }

  predicate Placed(g: Setup, v: View, s: Sys)
    requires |g.table| == |g.msgs| && s.sent < |g.msgs|
  {
    var record, last := g.table[s.sent], |g.msgs| - 1;
    match v.line
    case 0 => s.spc == Ready0 && s.sent == 0
    case 1 => s.spc == (if v.a == READY0 then Ready1 else Ready0) && s.sent == 0
    case 2 => s.spc == (if v.z then Ready1 else Ready0) && s.sent == 0
    case 3 => s.spc == Ready1 && s.sent == 0
    case 4 => s.spc == (if v.a == READY1 then Prepare(3) else Ready1) && s.sent == 0
    case 5 => s.spc == (if v.z then Prepare(3) else Ready1) && s.sent == 0
    case 6 => s.spc == Prepare(3) && s.sent == 0
    case 7 => s.spc == Prepare(3) && Indexes(v, s.sent)
    case 8 => s.spc == Prepare(3) && Indexes(v, s.sent) && v.a == record.port1
    case 9 => s.spc == Prepare(2) && Indexes(v, s.sent)
    case 10 => s.spc == Prepare(2) && Indexes(v, s.sent) && v.a == record.port2
    case 11 => s.spc == Prepare(1) && Indexes(v, s.sent)
    case 12 => s.spc == Prepare(1) && Indexes(v, s.sent) && v.a == record.port3
    case 13 => s.spc == Prepare(0) && Indexes(v, s.sent)
    case 14 => s.spc == Prepare(0) && Indexes(v, s.sent) && v.a == record.port0
    case 15 => s.spc == (if s.sent == last then Finished else Await) && Indexes(v, s.sent) && v.a == record.port0
    case 16 =>
      && s.spc == (if s.sent == last then Finished else Await) && Indexes(v, s.sent) && v.a == record.port0
      && v.z == (s.sent == last)
    case 17 => s.spc == Await && s.sent < last && Indexes(v, s.sent) && v.a == record.port0
    case 18 =>
      if v.z then s.spc == Prepare(3) && s.sent > 0 && Indexes(v, s.sent - 1)
      else s.spc == Await && s.sent < last && Indexes(v, s.sent) && v.a == record.port0
    case 19 => s.spc == Prepare(3) && s.sent > 0 && v.x == 4 * s.sent - 4
    case 20 => s.spc == Prepare(3) && s.sent > 0 && v.x == 4 * s.sent - 3
    case 21 => s.spc == Prepare(3) && s.sent > 0 && v.x == 4 * s.sent - 2
    case 22 => s.spc == Prepare(3) && s.sent > 0 && v.x == 4 * s.sent - 1
    case 23 => s.spc == Prepare(3) && Indexes(v, s.sent)
    case 24 => s.spc == Finished
    case _ => false
  }

  /** The cookie in port 0 is that of the message under way, or else of the one before. */
  predicate CookieOf(g: Setup, s: Sys)
    requires |g.table| == |g.msgs| && s.sent < |g.msgs|
  {
    if Committed(s.spc) then s.input.port0 == g.table[s.sent].port0
    else s.sent > 0 ==> s.input.port0 == g.table[s.sent - 1].port0
  }

  /** The ports that the program has already written for the message under way. */
  predicate PortsDone(g: Setup, s: Sys)
    requires s.sent < |g.table|
  {
    var record := g.table[s.sent];
    s.spc.Prepare? ==>
      && (s.spc.left <= 2 ==> s.input.port1 == record.port1)
      && (s.spc.left <= 1 ==> s.input.port2 == record.port2)
      && (s.spc.left == 0 ==> s.input.port3 == record.port3)
  }

  predicate Synchronised(g: Setup, v: View, s: Sys) {
    && FourPorts(v.m) && s.input == PortsOf(v.m.input) && s.output == PortsOf(v.m.output)
    && s.sent < |g.msgs| == |g.table| && CookieOf(g, s) && PortsDone(g, s) && Placed(g, v, s)
  }

  /** The sender's step that executing the line amounts to; most lines are none. */
  function Mirror(v: View, s: Sys, last: int): Sys {
    match v.line
    case 0 => if s.output.port0 == READY0 then s.(spc := Ready1) else s
    case 3 => if s.output.port1 == READY1 then s.(spc := Prepare(3)) else s
    case 8 => s.(input := s.input.(port1 := v.a), spc := Prepare(2))
    case 10 => s.(input := s.input.(port2 := v.a), spc := Prepare(1))
    case 12 => s.(input := s.input.(port3 := v.a), spc := Prepare(0))
    case 14 => s.(input := s.input.(port0 := v.a), spc := if s.sent == last then Finished else Await)
    case 17 => if s.output.port0 == s.input.port0 then s.(sent := s.sent + 1, spc := Prepare(3)) else s
    case _ => s
  }

  predicate IsAccess(line: nat) {
    line == 0 || line == 3 || line == 8 || line == 10 || line == 12 || line == 14 || line == 17
  }

  /** What the program, as a sender, chooses: three writes for each message, and then the cookie. */
  function ChoiceAt(v: View): Choice {
    Choice(match v.line case 8 => 1 case 10 => 2 case 12 => 3 case _ => 0, v.a, 3)
  }

  const BUDGET := 3

  /** At a line that accesses a port the program does what the protocol allows. */
  lemma AccessConforms(g: Setup, v: View, s: Sys)
    requires g.Valid() && Synchronised(g, v, s) && IsAccess(v.line)
    ensures SenderStep(g.msgs, BUDGET, s, ChoiceAt(v), Mirror(v, s, g.Last()))
  {
    hide Program;
    assert RecordFits(g.msgs, g.table, s.sent);
  }

  // ---- line by line

  /** The waits for 0xAA and 0xBB, and the start of the index. */
  function WaitStep(v: View): View
    requires FourPorts(v.m)
  {
    match v.line
    case 0 => v.(line := 1, a := v.m.output[0], z := v.m.output[0] == 0)
    case 1 => v.(line := 2, z := v.a == READY0)
    case 2 => v.(line := if v.z then 3 else 0)
    case 3 => v.(line := 4, a := v.m.output[1], z := v.m.output[1] == 0)
    case 4 => v.(line := 5, z := v.a == READY1)
    case 5 => v.(line := if v.z then 6 else 3)
    case _ => v.(line := 7, x := 0, z := true)
  }

  lemma WaitLine(g: Setup, v: View)
    requires g.Valid() && FourPorts(v.m) && v.line <= 6
    ensures StepView(g.lines, v) == WaitStep(v)
  {
    PortCells();
    hide CellOf, WellFormed, Encodes;
  }

  lemma WaitKeeps(g: Setup, v: View, s: Sys)
    requires Synchronised(g, v, s) && v.line <= 6
    ensures Synchronised(g, WaitStep(v), Mirror(v, s, g.Last())) && WaitStep(v).m == v.m && WaitStep(v).line < 25
  {
  }

  /** The byte of the record that the loads at lines 7, 9, 11 and 13 fetch. */
  function PartOf(p: Snapshot, line: nat): u8 {
    match line
    case 7 => p.port1
    case 9 => p.port2
    case 11 => p.port3
    case _ => p.port0
  }

  lemma LoadLine(g: Setup, v: View, k: nat)
    requires g.Valid() && TableIn(v.m, g.base, g.table) && k < |g.msgs| && Indexes(v, k)
    requires v.line == 7 || v.line == 9 || v.line == 11 || v.line == 13
    ensures var b := PartOf(g.table[k], v.line);
            StepView(g.lines, v) == v.(line := v.line + 1, a := b, z := b == 0)
  {
    hide BusMemory.Read, WellFormed, RecordFits, OffPorts;
    assert RecordAt(v.m, g.base + 4 * k) == g.table[k];
  }

  lemma LoadKeeps(g: Setup, v: View, s: Sys, z: bool)
    requires Synchronised(g, v, s) && (v.line == 7 || v.line == 9 || v.line == 11 || v.line == 13)
    ensures Indexes(v, s.sent)
    ensures var v' := v.(line := v.line + 1, a := PartOf(g.table[s.sent], v.line), z := z);
            Synchronised(g, v', Mirror(v, s, g.Last()))
  {
  }

  /** The port that the stores at lines 8, 10, 12 and 14 write. */
  function PortOf(line: nat): (i: nat)
    ensures i < 4
  {
    match line
    case 8 => 1
    case 10 => 2
    case 12 => 3
    case _ => 0
  }

  function StoreStep(v: View): View
    requires FourPorts(v.m)
  {
    v.(line := v.line + 1, m := v.m.(input := v.m.input[PortOf(v.line) := v.a]))
  }

  lemma StoreLine(g: Setup, v: View)
    requires g.Valid() && FourPorts(v.m) && (v.line == 8 || v.line == 10 || v.line == 12 || v.line == 14)
    ensures StepView(g.lines, v) == StoreStep(v)
  {
    PortCells();
    hide CellOf, WellFormed, Encodes;
  }

  lemma StoreKeeps(g: Setup, v: View, s: Sys)
    requires Synchronised(g, v, s) && (v.line == 8 || v.line == 10 || v.line == 12 || v.line == 14)
    ensures Synchronised(g, StoreStep(v), Mirror(v, s, g.Last())) && SameButPorts(v.m, StoreStep(v).m)
  {
  }

  /** The test for the last record, the wait for the echo, the index moved on, the final loop. */
  function EchoStep(v: View, last: int): View
    requires FourPorts(v.m)
  {
    match v.line
    case 15 => v.(line := 16, z := v.x == 4 * last)
    case 16 => v.(line := if v.z then 24 else 17)
    case 17 => v.(line := 18, z := v.a == v.m.output[0])
    case 18 => v.(line := if v.z then 19 else 17)
    case 23 => v.(line := 7)
    case 24 => v
    case _ => var w := Trunc16(v.x + 1); v.(line := v.line + 1, x := w, z := w == 0)
  }

  lemma EchoLine(g: Setup, v: View)
    requires g.Valid() && FourPorts(v.m) && 15 <= v.line <= 24
    ensures StepView(g.lines, v) == EchoStep(v, g.Last())
  {
    PortCells();
    hide CellOf, WellFormed, Encodes;
  }

  lemma EchoKeeps(g: Setup, v: View, s: Sys)
    requires Synchronised(g, v, s) && 15 <= v.line <= 18
    ensures var v' := EchoStep(v, g.Last()); Synchronised(g, v', Mirror(v, s, g.Last())) && v'.m == v.m && v'.line < 25
  {
  }

  lemma NextKeeps(g: Setup, v: View, s: Sys)
    requires Synchronised(g, v, s) && v.line >= 19 && 4 * |g.msgs| <= 0x1_0000
    ensures v.line <= 24
    ensures var v' := EchoStep(v, g.Last()); Synchronised(g, v', Mirror(v, s, g.Last())) && v'.m == v.m && v'.line < 25
  {
  }

  /** Executing any line keeps the program and the sender together, code and table in place. */
  lemma LineKeeps(g: Setup, v: View, s: Sys)
    requires g.Valid() && Synchronised(g, v, s) && TableIn(v.m, g.base, g.table)
    ensures var v' := StepView(g.lines, v);
            v'.line < 25 && SameButPorts(v.m, v'.m) && Synchronised(g, v', Mirror(v, s, g.Last()))
  {
    hide StepView, Mirror, WaitStep, EchoStep, StoreStep, PartOf, Program, WellFormed, Encodes, TableIn;
    hide CookieOf, Placed;
    if v.line <= 6 {
      WaitLine(g, v);
      WaitKeeps(g, v, s);
    } else if v.line >= 19 {
      NextKeeps(g, v, s);
      EchoLine(g, v);
    } else if v.line >= 15 {
      EchoLine(g, v);
      EchoKeeps(g, v, s);
    } else if v.line == 8 || v.line == 10 || v.line == 12 || v.line == 14 {
      StoreLine(g, v);
      StoreLineStays(v);
      StoreKeeps(g, v, s);
    } else {
      LoadKeeps(g, v, s, PartOf(g.table[s.sent], v.line) == 0);
      LoadLine(g, v, s.sent);
    }
  }

  lemma StoreLineStays(v: View)
    requires FourPorts(v.m) && v.line < 15
    ensures StoreStep(v).line < 25
  {
  }

  // ---- the assembled program

  lemma NextOffset(lines: seq<Line>, j: nat)
    requires j < |lines|
    ensures CodeOffset(lines, j + 1) == CodeOffset(lines, j) + 1 + OperandBytes(lines[j])
  {
  }

  lemma WaitOffsets(base: u16, count: nat)
    requires 0 < count && base + 4 * count <= 0x1_0000
    ensures var p := Program(base, count);
            CodeOffset(p, 0) == 0 && CodeOffset(p, 3) == 7 && CodeOffset(p, 6) == 14 && CodeOffset(p, 7) == 17
  {
    var p := Program(base, count);
    assert CodeOffset(p, 0) == 0;
    hide CodeOffset;
    NextOffset(p, 0); NextOffset(p, 1); NextOffset(p, 2); NextOffset(p, 3);
    NextOffset(p, 4); NextOffset(p, 5); NextOffset(p, 6);
  }

  lemma RecordOffsets(base: u16, count: nat)
    requires 0 < count && base + 4 * count <= 0x1_0000
    ensures var p := Program(base, count); CodeOffset(p, 13) == CodeOffset(p, 7) + 18
  {
    hide CodeOffset;
    var p := Program(base, count);
    NextOffset(p, 7); NextOffset(p, 8); NextOffset(p, 9); NextOffset(p, 10); NextOffset(p, 11); NextOffset(p, 12);
  }

  lemma CookieOffsets(base: u16, count: nat)
    requires 0 < count && base + 4 * count <= 0x1_0000
    ensures var p := Program(base, count); CodeOffset(p, 17) == CodeOffset(p, 13) + 11
  {
    hide CodeOffset;
    var p := Program(base, count);
    NextOffset(p, 13); NextOffset(p, 14); NextOffset(p, 15); NextOffset(p, 16);
  }

  lemma EchoOffsets(base: u16, count: nat)
    requires 0 < count && base + 4 * count <= 0x1_0000
    ensures var p := Program(base, count); var o := CodeOffset(p, 17);
            CodeOffset(p, 19) == o + 5 && CodeOffset(p, 24) == o + 11 && CodeOffset(p, 25) == o + 13
  {
    hide CodeOffset;
    var p := Program(base, count);
    NextOffset(p, 17); NextOffset(p, 18); NextOffset(p, 19); NextOffset(p, 20);
    NextOffset(p, 21); NextOffset(p, 22); NextOffset(p, 23); NextOffset(p, 24);
  }

  lemma BranchesFit(base: u16, count: nat)
    requires 0 < count && base + 4 * count <= 0x1_0000
    ensures var p := Program(base, count);
            && BranchFits(p, 2) && BranchFits(p, 5) && BranchFits(p, 16)
            && BranchFits(p, 18) && BranchFits(p, 23) && BranchFits(p, 24) && CodeOffset(p, 25) == 59
  {
    WaitOffsets(base, count);
    RecordOffsets(base, count);
    CookieOffsets(base, count);
    EchoOffsets(base, count);
    hide CodeOffset;
  }

  /** Every branch of the program is within reach; the program is 59 bytes long. */
  lemma ProgramAssembles(base: u16, count: nat)
    requires 0 < count && base + 4 * count <= 0x1_0000
    ensures Assembles(Program(base, count)) && |Code(Program(base, count))| == 59
  {
    BranchesFit(base, count);
    hide CodeOffset, Displacement;
  }

  // ---- loading

  function TableBytes(table: seq<Snapshot>): (bytes: seq<u8>)
    ensures |bytes| == 4 * |table|
  {
    if table == [] then [] else TableBytes(table[..|table| - 1]) + BytesOf(table[|table| - 1])
  }

  lemma {:induction false} RecordBytes(table: seq<Snapshot>, k: nat)
    requires k < |table|
    ensures var b, r := TableBytes(table), table[k];
            b[4 * k] == r.port0 && b[4 * k + 1] == r.port1 && b[4 * k + 2] == r.port2 && b[4 * k + 3] == r.port3
    decreases |table|
  {
    if k < |table| - 1 {
      RecordBytes(table[..|table| - 1], k);
    }
  }

  lemma {:induction false} LowPageKeepsPorts(m: Memory, pc: u16, bytes: seq<u8>)
    requires pc + |bytes| <= LOW_PAGE && FourPorts(m)
    ensures FourPorts(WriteBytes(m, pc, bytes))
    decreases |bytes|
  {
    hide CellOf;
    if bytes != [] {
      LowPageIsWram(pc);
      LowPageKeepsPorts(m, pc + 1, bytes[1..]);
    }
  }

  /** The program followed by its table. */
  function Image(g: Setup): seq<u8> { Code(g.lines) + TableBytes(g.table) }

  lemma LowPageOffPorts(addr: u16, i: nat)
    requires addr + i < LOW_PAGE
    ensures OffPorts(addr, i) && Trunc16(addr + i) == addr + i
  {
    LowPageIsWram(addr + i);
  }

  /** Program and table written through the bus into the low page, one behind the other, are in place. */
  lemma LoadedInLowPage(g: Setup, m: Memory)
    requires FourPorts(m) && LOW_PAGE <= |m.wram| && g.start + |Image(g)| <= LOW_PAGE
    requires g.base == g.start + |Code(g.lines)|
    ensures Layout(g, WriteBytes(m, g.start, Image(g)))
  {
    hide BusMemory.Read, WriteBytes, Assembled, TableBytes, OffPorts;
    var m' := WriteBytes(m, g.start, Image(g));
    EncodeHolds(m, g.start, Image(g));
    LowPageKeepsPorts(m, g.start, Image(g));
    forall i | 0 <= i < |Image(g)|
      ensures OffPorts(g.start, i) && Read(m', g.start + i) == Image(g)[i]
    {
      LowPageOffPorts(g.start, i);
    }
    forall i | 0 <= i < |Code(g.lines)|
      ensures OffPorts(g.start, i) && Read(m', Trunc16(g.start + i)) == Code(g.lines)[i]
    {
      assert Image(g)[i] == Code(g.lines)[i];
    }
    LoadedTable(g, m');
    LowPagePresent(m', g.start, |Code(g.lines)|);
    LowPagePresent(m', g.base, 4 * |g.table|);
  }

  lemma LoadedTable(g: Setup, m: Memory)
    requires g.start + |Image(g)| <= LOW_PAGE && g.base == g.start + |Code(g.lines)|
    requires forall i :: 0 <= i < |Image(g)| ==> Read(m, g.start + i) == Image(g)[i]
    ensures TableIn(m, g.base, g.table)
  {
    hide BusMemory.Read, Assembled, TableBytes, OffPorts;
    forall i | 0 <= i < 4 * |g.table|
      ensures OffPorts(g.base, i)
    {
      LowPageOffPorts(g.base, i);
    }
    forall k | 0 <= k < |g.table|
      ensures RecordAt(m, g.base + 4 * k) == g.table[k]
    {
      RecordBytes(g.table, k);
      var o := |Code(g.lines)| + 4 * k;
      assert Read(m, g.start + o) == Image(g)[o] && Read(m, g.start + (o + 1)) == Image(g)[o + 1];
      assert Read(m, g.start + (o + 2)) == Image(g)[o + 2] && Read(m, g.start + (o + 3)) == Image(g)[o + 3];
    }
  }

  // ---- the world follows the system

  /** The processor at the line the view says, the view in step with the system, the APU thread the system's own. */
  predicate Coupled(g: Setup, w: World, v: View, s: Sys) {
    && Stands(w.cpu, g.lines, g.start, v) && Layout(g, v.m) && Synchronised(g, v, s)
    && s.apu == w.apu && s.apc == w.apc
  }

  lemma MirrorKeepsApu(v: View, s: Sys, last: int)
    ensures var t := Mirror(v, s, last); t.apu == s.apu && t.apc == s.apc && t.log == s.log
  {
  }

  /** One instruction of the program. */
  lemma CpuMoveCoupled(g: Setup, w: World, w': World, v: View, s: Sys)
    requires g.Valid() && Coupled(g, w, v, s) && WorldMoves(Sender, w, w')
    ensures Coupled(g, w', StepView(g.lines, v), Mirror(v, s, g.Last()))
  {
    hide Step, StepView, Synchronised, Mirror, Holds, OffPorts, SameButPorts, Code, LineInstruction, LineStart, TableIn;
    hide Program, Encodes, Assembles;
    ProgramAssembles(g.base, |g.msgs|);
    LineKeeps(g, v, s);
    var v' := StepView(g.lines, v);
    LayoutStays(g, v.m, v'.m);
    MirrorKeepsApu(v, s, g.Last());
    var junk: u32 :| w'.cpu == Step(w.cpu, junk);
    StepFollowsLines(w.cpu, g.lines, g.start, v, junk);
  }

  /** The APU's step reads and writes its own side only. */
  lemma ApuStepSide(s: Sys, t: Sys)
    requires |s.apu.ram| == RAM_SIZE
    requires t.apu == s.apu && t.apc == s.apc && t.input == s.input && t.output == s.output
    ensures var s', t' := ApuStep(s), ApuStep(t);
            && t'.apu == s'.apu && t'.apc == s'.apc && t'.output == s'.output
            && s'.input == s.input && s'.spc == s.spc && s'.sent == s.sent
  {
    hide Accept, Classify, Upload.Decode, EchoOf;
  }

  /** The view with what the APU has put into its output ports. */
  function Seen(v: View, output: Snapshot): View { v.(m := WithOutput(v.m, output)) }

  lemma SeenStands(g: Setup, c: Cpu, v: View, output: Snapshot)
    requires Stands(c, g.lines, g.start, v) && Layout(g, v.m)
    ensures var v' := Seen(v, output);
            Stands(c.(s := c.s.(m := v'.m)), g.lines, g.start, v') && Layout(g, v'.m)
  {
    hide Holds, OffPorts, Code, LineInstruction, LineStart, TableIn;
    LayoutStays(g, v.m, WithOutput(v.m, output));
  }

  lemma SeenSynchronised(g: Setup, v: View, s: Sys, t: Sys)
    requires Synchronised(g, v, s) && t.input == s.input && t.spc == s.spc && t.sent == s.sent
    ensures Synchronised(g, Seen(v, t.output), t)
  {
  }

  /** One access of the APU thread. */
  lemma ApuMoveCoupled(g: Setup, w: World, v: View, s: Sys)
    requires Coupled(g, w, v, s) && |w.apu.ram| == RAM_SIZE
    ensures FourPorts(w.cpu.s.m) && w.cpu.s.m == v.m
    ensures Coupled(g, ApuMove(w), Seen(v, ApuStep(s).output), ApuStep(s))
  {
    hide ApuStep, Holds, Code, LineInstruction, LineStart, CodeIn, TableIn, Placed, CookieOf;
    ApuStepSide(s, ApuSide(w));
    SeenStands(g, w.cpu, v, ApuStep(s).output);
    SeenSynchronised(g, v, s, ApuStep(s));
  }
}
