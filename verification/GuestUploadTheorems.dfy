/** Guest program and APU thread together, from their bytes to the uploaded RAM. */
module GuestUploadTheorems {
  import opened Bytes
  import opened CpuMachine
  import opened CpuCore
  import opened Assembly
  import opened ApuProtocol
  import opened Upload
  import opened UploadTable
  import opened UploadTheorems
  import opened GuestUpload

  // ---- safety

  /** Both machines before their first step: the program fetched, native mode, the APU not started. */
  ghost predicate WorldStart(g: Setup, ram0: seq<u8>, w: World) {
    && (exists s: Machine :: StartsAt(g, s) && w.cpu == Prefetch(s))
    && Layout(g, w.cpu.s.m) && |ram0| == RAM_SIZE
    && w.apu.state == Stopped && w.apu.ram == ram0 && w.apc == Boot0
    && w.apu.last.port0 == w.cpu.s.m.input[0] != INIT_COOKIE
  }

  predicate StartsAt(g: Setup, s: Machine) { Fitting(s.r) && s.r.pc == g.start }

  /** The view and the system that a world starts as, `s` being the machine before the first fetch. */
  function FirstView(s: Machine): View { View(0, s.r.acc.Low(), s.r.x.value, s.r.p.z, s.m) }

  lemma FirstSynchronised(g: Setup, ram0: seq<u8>, w: World, v: View)
    requires WellFormed(g.msgs) && |g.table| == |g.msgs| && FourPorts(w.cpu.s.m) && |ram0| == RAM_SIZE
    requires w.apu.state == Stopped && w.apu.ram == ram0 && w.apc == Boot0
    requires w.apu.last.port0 == w.cpu.s.m.input[0] != INIT_COOKIE && v.line == 0 && v.m == w.cpu.s.m
    ensures Synchronised(g, v, ApuSide(w)) && Inv(g.msgs, ram0, ApuSide(w))
  {
    StartInv(g.msgs, ram0, ApuSide(w));
    hide Inv;
  }

  lemma FirstStands(g: Setup, c: Cpu, s: Machine)
    requires g.Valid() && StartsAt(g, s) && c == Prefetch(s) && Layout(g, c.s.m)
    ensures c.s.m == s.m && Stands(c, g.lines, g.start, FirstView(s))
  {
    PrefetchKeepsRegisters(s);
    hide Prefetch, Holds, Assembled, LineInstruction, Program, TableIn, Encodes, WellFormed;
    FetchesLine(s, g.lines, g.start, FirstView(s));
  }

  lemma WorldStartCoupled(g: Setup, ram0: seq<u8>, w: World) returns (v: View, s: Sys)
    requires g.Valid() && WorldStart(g, ram0, w)
    ensures Coupled(g, w, v, s) && Inv(g.msgs, ram0, s)
  {
    hide Prefetch, Stands, Program, CodeIn, TableIn, Fitting, Synchronised, Inv, WellFormed;
    var s0: Machine :| StartsAt(g, s0) && w.cpu == Prefetch(s0);
    FirstStands(g, w.cpu, s0);
    v, s := FirstView(s0), ApuSide(w);
    FirstSynchronised(g, ram0, w, v);
  }

  lemma ApuMoveInv(g: Setup, ram0: seq<u8>, w: World, v: View, s: Sys)
    requires WellFormed(g.msgs) && Coupled(g, w, v, s) && Inv(g.msgs, ram0, s)
    ensures |s.apu.ram| == RAM_SIZE
    ensures Coupled(g, ApuMove(w), Seen(v, ApuStep(s).output), ApuStep(s)) && Inv(g.msgs, ram0, ApuStep(s))
  {
    assert |s.apu.ram| == RAM_SIZE;
    hide Stands, Layout, Synchronised, ApuStep, ApuMove, Inv, WellFormed;
    ApuMoveCoupled(g, w, v, s);
    ApuStepInv(g.msgs, ram0, s);
  }

  lemma MirrorInv(g: Setup, ram0: seq<u8>, v: View, s: Sys)
    requires g.Valid() && Synchronised(g, v, s) && Inv(g.msgs, ram0, s)
    ensures Inv(g.msgs, ram0, Mirror(v, s, g.Last()))
  {
    if IsAccess(v.line) {
      hide Mirror, Synchronised, Program, Inv, WellFormed, Encodes, SenderStep, Setup.Last;
      AccessConforms(g, v, s);
      SenderStepInv(g.msgs, BUDGET, ram0, s, ChoiceAt(v), Mirror(v, s, g.Last()));
    } else {
      hide Synchronised, Program, Inv, WellFormed, Encodes, SenderStep, Setup.Last;
      assert Mirror(v, s, g.Last()) == s;
    }
  }

  lemma CpuMoveInv(g: Setup, ram0: seq<u8>, w: World, w': World, v: View, s: Sys)
    requires g.Valid() && Coupled(g, w, v, s) && Inv(g.msgs, ram0, s)
    requires WorldMoves(Sender, w, w')
    ensures Coupled(g, w', StepView(g.lines, v), Mirror(v, s, g.Last()))
    ensures Inv(g.msgs, ram0, Mirror(v, s, g.Last()))
  {
    hide Stands, Layout, Synchronised, StepView, Mirror, WorldMoves, Inv, Setup.Valid, Setup.Last;
    CpuMoveCoupled(g, w, w', v, s);
    MirrorInv(g, ram0, v, s);
  }

  /** View and system after a step of either machine. */
  function NextView(g: Setup, who: Party, v: View, s: Sys): View
    requires |s.apu.ram| == RAM_SIZE
  {
    if who.Apu? then Seen(v, ApuStep(s).output) else StepView(g.lines, v)
  }

  function NextSys(g: Setup, who: Party, v: View, s: Sys): Sys
    requires |s.apu.ram| == RAM_SIZE
  {
    if who.Apu? then ApuStep(s) else Mirror(v, s, g.Last())
  }

  lemma WorldStep(g: Setup, ram0: seq<u8>, who: Party, w: World, w': World, v: View, s: Sys)
    requires g.Valid() && Coupled(g, w, v, s) && Inv(g.msgs, ram0, s)
    requires WorldMoves(who, w, w')
    ensures |s.apu.ram| == RAM_SIZE
    ensures Coupled(g, w', NextView(g, who, v, s), NextSys(g, who, v, s)) && Inv(g.msgs, ram0, NextSys(g, who, v, s))
  {
    assert |s.apu.ram| == RAM_SIZE;
    if who.Apu? {
      hide Coupled, StepView, Mirror, ApuStep, ApuMove, Inv, Program, Encodes, Setup.Last;
      ApuMoveInv(g, ram0, w, v, s);
    } else {
      hide Coupled, StepView, Mirror, ApuStep, Inv, Setup.Valid, Setup.Last;
      CpuMoveInv(g, ram0, w, w', v, s);
    }
  }

  /** At every point of every interleaving the world is in step with a state of the invariant. */
  lemma {:induction false} WorldInv(g: Setup, ram0: seq<u8>, run: seq<World>, who: seq<Party>, i: nat)
    returns (v: View, s: Sys)
    requires g.Valid() && IsWorldRun(run, who) && WorldStart(g, ram0, run[0]) && i < |run|
    ensures Coupled(g, run[i], v, s) && Inv(g.msgs, ram0, s)
  {
    hide Coupled, Inv, WorldMoves, WorldStart, Setup.Valid;
    if i == 0 {
      v, s := WorldStartCoupled(g, ram0, run[0]);
    } else {
      v, s := WorldInv(g, ram0, run, who, i - 1);
      assert WorldMoves(who[i - 1], run[i - 1], run[i]);
      WorldStep(g, ram0, who[i - 1], run[i - 1], run[i], v, s);
      v, s := NextView(g, who[i - 1], v, s), NextSys(g, who[i - 1], v, s);
    }
  }

  /** The program and table for an upload of `blocks`. */
  function UploadSetup(start: u16, base: u16, blocks: seq<Block>, entry: u16): Setup
    requires base + 4 * |Script(blocks, entry)| <= 0x1_0000
  {
    var msgs := Script(blocks, entry);
    Setup(start, base, Program(base, |msgs|), msgs, TableFor(msgs))
  }

  lemma UploadSetupValid(start: u16, base: u16, blocks: seq<Block>, entry: u16)
    requires base + 4 * |Script(blocks, entry)| <= 0x1_0000
    ensures var g := UploadSetup(start, base, blocks, entry); g.Valid()
  {
    var msgs := Script(blocks, entry);
    ScriptWellFormed(blocks, entry);
    TableEncodes(msgs);
  }

  /**
   The guest's upload, end to end: whatever the blocks, and however the accesses of the APU thread
   fall between the program's instructions, once the APU executes every RAM cell holds the last byte
   the blocks put there, or what it held before; and its assertion on unknown cookies never fails.
   */
  lemma GuestUploadDelivers(start: u16, base: u16, blocks: seq<Block>, entry: u16, ram0: seq<u8>,
                            run: seq<World>, who: seq<Party>, i: nat, x: u16)
    requires base + 4 * |Script(blocks, entry)| <= 0x1_0000
    requires var g := UploadSetup(start, base, blocks, entry);
             IsWorldRun(run, who) && WorldStart(g, ram0, run[0]) && i < |run|
    ensures !run[i].apc.Crashed?
    ensures run[i].apu.state == Executing ==>
              && |run[i].apu.ram| == RAM_SIZE
              && var w := LastWrite(blocks, x); run[i].apu.ram[x] == if w.Some? then w.value else ram0[x]
  {
    hide WorldMoves, WorldStart, Stands, Layout, Synchronised, Inv, Program, TableFor, Setup.Valid;
    var g := UploadSetup(start, base, blocks, entry);
    UploadSetupValid(start, base, blocks, entry);
    var v, s := WorldInv(g, ram0, run, who, i);
    NeverCrashed(g.msgs, ram0, s);
    if s.apu.state == Executing {
      ExecutingHoldsBlocks(blocks, entry, ram0, s, x);
    }
  }

  lemma NeverCrashed(msgs: seq<Message>, ram0: seq<u8>, s: Sys)
    requires Inv(msgs, ram0, s)
    ensures !s.apc.Crashed?
  {
  }

  // ---- progress

  /** Instructions the program still executes before its next access that can move the protocol on. */
  function Distance(v: View): (d: nat)
    ensures d <= 8
  {
    match v.line
    case 0 => 1
    case 1 => 3
    case 2 => 2
    case 3 => 1
    case 4 => if v.a == READY1 then 5 else 3
    case 5 => if v.z then 4 else 2
    case 6 => 3
    case 7 => 2
    case 9 => 2
    case 11 => 2
    case 13 => 2
    case 15 => 3
    case 16 => 2
    case 18 => if v.z then 8 else 2
    case 19 => 7
    case 20 => 6
    case 21 => 5
    case 22 => 4
    case 23 => 3
    case 24 => 0
    case _ => 1
  }

  /** The rank of the system, and while the program is to move also its distance. */
  function WorldRank(g: Setup, v: View, s: Sys): nat {
    if s.sent < |g.msgs| then 16 * Rank(g.msgs, BUDGET, s) + (if Helpful(s).Sender? then Distance(v) else 0) else 0
  }

  /** Between two accesses the program comes closer to the next one. */
  lemma DistanceFalls(g: Setup, ram0: seq<u8>, v: View, s: Sys)
    requires g.Valid() && Synchronised(g, v, s) && Inv(g.msgs, ram0, s)
    requires TableIn(v.m, g.base, g.table)
    requires s.apu.state != Executing && Helpful(s).Sender? && !IsAccess(v.line)
    ensures Distance(StepView(g.lines, v)) < Distance(v)
  {
    hide StepView, Program, WellFormed, Encodes, TableIn, Delivered, Payload, Deliver, CookieOf, Pending;
    if v.line <= 6 {
      WaitLine(g, v);
    } else if v.line >= 15 {
      NotFinished(g, ram0, v, s);
      assert v.line <= 24;
      EchoLine(g, v);
    } else {
      assert v.line == 7 || v.line == 9 || v.line == 11 || v.line == 13;
      LoadLine(g, v, s.sent);
    }
  }

  /** Once the program has put up the last cookie it is the APU that must move. */
  lemma NotFinished(g: Setup, ram0: seq<u8>, v: View, s: Sys)
    requires WellFormed(g.msgs) && Inv(g.msgs, ram0, s) && s.apu.state != Executing && Helpful(s).Sender?
    ensures !s.spc.Finished?
  {
    hide Delivered, Payload, Deliver;
  }

  /** Whether a step lowers the world's rank: the helpful party's does, and no step raises it. */
  predicate RankFalls(g: Setup, who: Party, v: View, s: Sys)
    requires |s.apu.ram| == RAM_SIZE
  {
    var v', s' := NextView(g, who, v, s), NextSys(g, who, v, s);
    && s.sent < |g.msgs| && s'.sent < |g.msgs|
    && WorldRank(g, v', s') <= WorldRank(g, v, s)
    && (WorldRank(g, v', s') == WorldRank(g, v, s) ==> Helpful(s') == Helpful(s) != who)
  }

  lemma ApuRankFalls(g: Setup, ram0: seq<u8>, v: View, s: Sys)
    requires WellFormed(g.msgs) && Inv(g.msgs, ram0, s) && s.apu.state != Executing
    ensures |s.apu.ram| == RAM_SIZE && RankFalls(g, Apu, v, s)
  {
    assert |s.apu.ram| == RAM_SIZE && s.sent < |g.msgs|;
    hide Inv, WellFormed, ApuStep, Rank, Helpful;
    assert Moves(g.msgs, BUDGET, Apu, s, ApuStep(s));
    OtherStepsDoNotRaise(g.msgs, BUDGET, ram0, Apu, s, ApuStep(s));
    if Helpful(s).Apu? {
      HelpfulLowers(g.msgs, BUDGET, ram0, s, ApuStep(s));
    }
  }

  lemma SenderRankFalls(g: Setup, ram0: seq<u8>, v: View, s: Sys)
    requires g.Valid() && Synchronised(g, v, s) && TableIn(v.m, g.base, g.table)
    requires Inv(g.msgs, ram0, s) && s.apu.state != Executing
    ensures |s.apu.ram| == RAM_SIZE && RankFalls(g, Sender, v, s)
  {
    assert |s.apu.ram| == RAM_SIZE && s.sent < |g.msgs|;
    var s' := Mirror(v, s, g.Last());
    if IsAccess(v.line) {
      AccessConforms(g, v, s);
      hide Inv, WellFormed, StepView, Rank, Helpful, Synchronised, TableIn, Mirror, Encodes, Program, SenderStep;
      assert Moves(g.msgs, BUDGET, Sender, s, s');
      OtherStepsDoNotRaise(g.msgs, BUDGET, ram0, Sender, s, s');
      if Helpful(s).Sender? {
        HelpfulLowers(g.msgs, BUDGET, ram0, s, s');
      }
    } else {
      assert s' == s;
      hide Inv, WellFormed, StepView, Rank, Helpful, Synchronised, TableIn, Mirror, Encodes, Program, Distance;
      if Helpful(s).Sender? {
        DistanceFalls(g, ram0, v, s);
      }
    }
  }

  ghost predicate WorldExecutes(run: seq<World>) { exists i :: 0 <= i < |run| && run[i].apu.state == Executing }

  /** One step of a run that has not executed yet. */
  lemma WorldStepFalls(g: Setup, ram0: seq<u8>, who: Party, w: World, w': World, v: View, s: Sys)
    requires g.Valid() && Coupled(g, w, v, s) && Inv(g.msgs, ram0, s)
    requires WorldMoves(who, w, w') && w.apu.state != Executing
    ensures |s.apu.ram| == RAM_SIZE && RankFalls(g, who, v, s)
    ensures Coupled(g, w', NextView(g, who, v, s), NextSys(g, who, v, s)) && Inv(g.msgs, ram0, NextSys(g, who, v, s))
  {
    WorldStep(g, ram0, who, w, w', v, s);
    hide Stands, WorldMoves, NextView, NextSys, Inv, WorldRank, Helpful, Synchronised, TableIn, CodeIn, Program;
    hide WellFormed, Encodes, RankFalls;
    if who.Apu? {
      ApuRankFalls(g, ram0, v, s);
    } else {
      SenderRankFalls(g, ram0, v, s);
    }
  }

  /** Until the helpful party moves, the rank can only stay or fall. */
  lemma {:induction false} WorldFallsWithin(g: Setup, ram0: seq<u8>, run: seq<World>, who: seq<Party>,
                                            i: nat, j: nat, v: View, s: Sys)
    returns (k: nat, v': View, s': Sys)
    requires g.Valid() && IsWorldRun(run, who)
    requires i <= j < |who| && !WorldExecutes(run)
    requires Coupled(g, run[i], v, s) && Inv(g.msgs, ram0, s) && who[j] == Helpful(s)
    ensures i < k <= j + 1 && Coupled(g, run[k], v', s') && Inv(g.msgs, ram0, s')
    ensures WorldRank(g, v', s') < WorldRank(g, v, s)
    decreases j - i
  {
    hide Coupled, Inv, WorldMoves, Setup.Valid, WorldRank, Helpful, NextView, NextSys;
    assert WorldMoves(who[i], run[i], run[i + 1]);
    WorldStepFalls(g, ram0, who[i], run[i], run[i + 1], v, s);
    var v1, s1 := NextView(g, who[i], v, s), NextSys(g, who[i], v, s);
    if WorldRank(g, v1, s1) < WorldRank(g, v, s) {
      k, v', s' := i + 1, v1, s1;
    } else {
      k, v', s' := WorldFallsWithin(g, ram0, run, who, i + 1, j, v1, s1);
    }
  }

  lemma {:induction false} FairWorldFrom(g: Setup, ram0: seq<u8>, run: seq<World>, who: seq<Party>, w: nat,
                                         i: nat, v: View, s: Sys)
    requires g.Valid() && IsWorldRun(run, who) && Fair(who, w)
    requires i < |run| && Coupled(g, run[i], v, s) && Inv(g.msgs, ram0, s)
    requires |who| - i >= w * (WorldRank(g, v, s) + 1)
    ensures WorldExecutes(run)
    decreases |who| - i
  {
    hide Coupled, Inv, WorldMoves, Setup.Valid, WorldRank, Helpful;
    if !WorldExecutes(run) {
      var r := WorldRank(g, v, s);
      WindowsLeft(w, r, r);
      var p := Helpful(s);
      assert MovesWithin(who, i, w, p);
      var j :| i <= j < i + w && j < |who| && who[j] == p;
      var k, v', s' := WorldFallsWithin(g, ram0, run, who, i, j, v, s);
      WindowsLeft(w, r, WorldRank(g, v', s'));
      FairWorldFrom(g, ram0, run, who, w, k, v', s');
    }
  }

  /** If in every `w` steps both machines move, the APU executes after a number of steps linear in the script. */
  lemma FairGuestUploadExecutes(start: u16, base: u16, blocks: seq<Block>, entry: u16, ram0: seq<u8>,
                                run: seq<World>, who: seq<Party>, w: nat)
    requires base + 4 * |Script(blocks, entry)| <= 0x1_0000
    requires var g := UploadSetup(start, base, blocks, entry);
             IsWorldRun(run, who) && WorldStart(g, ram0, run[0]) && Fair(who, w)
    requires |who| >= w * (16 * (128 * |Script(blocks, entry)| + 128))
    ensures WorldExecutes(run)
  {
    hide WorldMoves, WorldStart, Coupled, Inv, Program, Script, TableFor, Fair, WorldRank, Setup.Valid;
    var g := UploadSetup(start, base, blocks, entry);
    UploadSetupValid(start, base, blocks, entry);
    var v, s := WorldInv(g, ram0, run, who, 0);
    RankBound(g, run[0], v, s);
    MulMono(WorldRank(g, v, s) + 1, 16 * (128 * |g.msgs| + 128), w);
    FairWorldFrom(g, ram0, run, who, w, 0, v, s);
  }

  lemma RankBound(g: Setup, w: World, v: View, s: Sys)
    requires Coupled(g, w, v, s)
    ensures WorldRank(g, v, s) + 1 <= 16 * (128 * |g.msgs| + 128)
  {
    hide Stands, Layout, CookieOf, PortsDone;
    assert Placed(g, v, s) && (s.spc.Prepare? ==> s.spc.left <= BUDGET);
    hide Placed, Distance, Helpful;
  }
}
