/**
 The run loop of the CPU thread against concurrent writers of commands and breakpoints. What an
 instruction does is left open: it yields an arbitrary next instruction address.
 */
module RunLoop {
  import opened Bytes
  import opened Breakpoints

  datatype Mode = Stop | Step | Run | Unknown

  /** The thread's position: the locked mailbox, the unlocked check, the table scan, the instruction. */
  datatype Pc = Top | Check | Scan(slot: nat) | Decide(found: bool) | Execute | Ended

  datatype Event =
    | Consumed(mode: Mode)
    | Executed(addr: u32, byRun: bool, scanStart: Table, scanEnd: Table)

  /**
   `addr` is the computed address of the prefetched instruction, `scanStart` the table when its scan
   began, `executed` the number of instructions executed so far.
   */
  datatype Loop = Loop(mode: Mode, locked: bool, proceed: bool, running: bool, pc: Pc,
                       addr: u32, table: Table, scanStart: Table, executed: nat, log: seq<Event>)

  /** A thread step (with the next instruction address, should it execute one), or a step of a writer. */
  datatype Action = Thread(next: u32) | Command(mode: Mode) | Breakpoint(at: u32)

  predicate Boot(s: Loop) {
    s.mode == Unknown && !s.locked && !s.proceed && !s.running && s.pc == Top && s.log == []
  }

  function Consume(s: Loop): Loop {
    match s.mode
    case Unknown => s
    case Stop => s.(pc := Ended, locked := true, log := s.log + [Consumed(Stop)])
    case Run => s.(mode := Unknown, proceed := true, running := true, pc := Check, log := s.log + [Consumed(Run)])
    case Step => s.(mode := Unknown, proceed := false, running := false, pc := Check, log := s.log + [Consumed(Step)])
  }

  /** A command leads to the check or to the end, and leaves the table and the count alone. */
  lemma ConsumeShape(s: Loop)
    ensures var t := Consume(s);
            && t.table == s.table && t.addr == s.addr && t.executed == s.executed
            && (s.mode != Unknown ==> t.pc == Check || t.pc == Ended)
  {
  }

  function ThreadStep(s: Loop, next: u32): Loop {
    match s.pc
    case Top => if s.proceed then s.(pc := Check) else Consume(s)
    case Check =>
      if s.mode == Stop then s.(pc := Ended)
      else if s.running then s.(pc := Scan(0), scanStart := s.table)
      else s.(pc := Execute)
    case Scan(k) =>
      if k < MAX_BREAKPOINTS
      then (if s.table[k] == s.addr then s.(pc := Decide(true)) else s.(pc := Scan(k + 1)))
      else s.(pc := Decide(false))
    case Decide(found) => if found then s.(proceed := false, pc := Top) else s.(pc := Execute)
    case Execute =>
      s.(addr := next, pc := Top, executed := s.executed + 1,
         log := s.log + [Executed(s.addr, s.running, s.scanStart, s.table)])
    case Ended => s
  }

  /** A writer needs the lock, which the thread keeps for good when it consumes a STOP. */
  function Apply(s: Loop, a: Action): Loop {
    match a
    case Thread(next) => ThreadStep(s, next)
    case Command(m) => if s.locked then s else s.(mode := m)
    case Breakpoint(at) => s.(table := Set(s.table, at))
  }

  ghost predicate IsRun(trace: seq<Loop>, acts: seq<Action>) {
    && |trace| == |acts| + 1
    && forall i :: 0 <= i < |acts| ==> trace[i + 1] == Apply(trace[i], acts[i])
  }

  // ---- breakpoints and single steps

  /** No slot held the address both when the scan began and when the instruction was let through. */
  predicate Clear(addr: u32, before: Table, after: Table) {
    forall k :: 0 <= k < MAX_BREAKPOINTS ==> !(before[k] == addr && after[k] == addr)
  }

  predicate ScannedTo(s: Loop, n: nat)
    requires n <= MAX_BREAKPOINTS
  {
    forall k :: 0 <= k < n ==> !(s.scanStart[k] == s.addr && s.table[k] == s.addr)
  }

  ghost predicate GoodEvents(log: seq<Event>) {
    && (forall i :: 0 <= i < |log| && log[i].Executed? && log[i].byRun ==>
          Clear(log[i].addr, log[i].scanStart, log[i].scanEnd) && Extends(log[i].scanStart, log[i].scanEnd))
    && (forall i :: 0 <= i < |log| - 2 && log[i] == Consumed(Step) ==> log[i + 1].Consumed? || log[i + 2].Consumed?)
  }

  /** Inside a single step: the STEP is the last event until the instruction runs. */
  predicate StepPhase(s: Loop) {
    && (s.log != [] && s.log[|s.log| - 1] == Consumed(Step) ==>
          !s.running && (s.pc.Check? || s.pc.Execute? || s.pc.Ended?))
    && (|s.log| >= 2 && s.log[|s.log| - 2] == Consumed(Step) && s.log[|s.log| - 1].Executed? ==>
          !s.running && s.pc.Top?)
    && (!s.running ==> !s.proceed && (s.pc.Top? || s.pc.Check? || s.pc.Execute? || s.pc.Ended?))
    && (!s.running && s.pc.Check? ==> s.log != [] && s.log[|s.log| - 1] == Consumed(Step))
    && (!s.running && s.pc.Execute? ==> s.log != [] && s.log[|s.log| - 1] == Consumed(Step))
  }

  ghost predicate ScanPhase(s: Loop) {
    match s.pc
    case Scan(k) => s.running && k <= MAX_BREAKPOINTS && Extends(s.scanStart, s.table) && ScannedTo(s, k)
    case Decide(found) =>
      s.running && Extends(s.scanStart, s.table) && (!found ==> ScannedTo(s, MAX_BREAKPOINTS))
    case Execute => s.running ==> Extends(s.scanStart, s.table) && ScannedTo(s, MAX_BREAKPOINTS)
    case _ => true
  }

  ghost predicate Inv(s: Loop) { GoodEvents(s.log) && StepPhase(s) && ScanPhase(s) }

  lemma BreakpointInv(s: Loop, at: u32)
    requires Inv(s)
    ensures Inv(s.(table := Set(s.table, at)))
  {
    SetExtends(s.table, at);
  }

  lemma CommandInv(s: Loop, mode: Mode)
    requires Inv(s)
    ensures Inv(s.(mode := mode))
  {
    hide GoodEvents, Extends;
  }

  lemma ConsumeInv(s: Loop)
    requires Inv(s) && s.pc == Top && !s.proceed
    ensures Inv(Consume(s))
  {
    if s.mode != Unknown {
      GoodSnoc(s.log, Consumed(s.mode));
    }
  }

  lemma ExecuteInv(s: Loop, next: u32)
    requires Inv(s) && s.pc == Execute
    ensures Inv(ThreadStep(s, next))
  {
    GoodSnoc(s.log, Executed(s.addr, s.running, s.scanStart, s.table));
  }

  lemma GoodSnoc(log: seq<Event>, e: Event)
    requires GoodEvents(log)
    requires e.Executed? && e.byRun ==> Clear(e.addr, e.scanStart, e.scanEnd) && Extends(e.scanStart, e.scanEnd)
    requires e.Consumed? || |log| < 2 || log[|log| - 2] != Consumed(Step) || log[|log| - 1].Consumed?
    ensures GoodEvents(log + [e])
  {
    var all := log + [e];
    forall i | 0 <= i < |all| - 2 && all[i] == Consumed(Step)
      ensures all[i + 1].Consumed? || all[i + 2].Consumed?
    {
      assert all[i] == log[i] && all[i + 1] == log[i + 1];
      if i + 2 < |log| {
        assert all[i + 2] == log[i + 2];
      }
    }
  }

  lemma ThreadInv(s: Loop, next: u32)
    requires Inv(s)
    ensures Inv(ThreadStep(s, next))
  {
    if s.pc == Top && !s.proceed {
      ConsumeInv(s);
    } else if s.pc == Execute {
      ExecuteInv(s, next);
    } else {
      QuietInv(s, next);
    }
  }

  lemma QuietInv(s: Loop, next: u32)
    requires Inv(s) && s.pc != Execute && !(s.pc == Top && !s.proceed)
    ensures Inv(ThreadStep(s, next))
  {
    hide GoodEvents, Consume;
  }

  lemma {:induction false} RunInv(trace: seq<Loop>, acts: seq<Action>, i: nat)
    requires IsRun(trace, acts) && Boot(trace[0]) && i < |trace|
    ensures Inv(trace[i])
  {
    if i > 0 {
      RunInv(trace, acts, i - 1);
      assert trace[i] == Apply(trace[i - 1], acts[i - 1]);
      hide Inv, ThreadStep, IsRun;
      match acts[i - 1]
      case Thread(next) => ThreadInv(trace[i - 1], next);
      case Breakpoint(at) => BreakpointInv(trace[i - 1], at);
      case Command(mode) => CommandInv(trace[i - 1], mode);
    }
  }

  /** A consumed STEP is followed by at most one instruction before the next command is consumed. */
  lemma StepExecutesAtMostOne(trace: seq<Loop>, acts: seq<Action>, i: nat, k: nat)
    requires IsRun(trace, acts) && Boot(trace[0]) && i < |trace|
    requires k + 2 < |trace[i].log| && trace[i].log[k] == Consumed(Step)
    ensures trace[i].log[k + 1].Consumed? || trace[i].log[k + 2].Consumed?
  {
    RunInv(trace, acts, i);
  }

  /** And by exactly one if the thread comes back for another command. */
  lemma StepExecutesBeforeReturning(trace: seq<Loop>, acts: seq<Action>, i: nat)
    requires IsRun(trace, acts) && Boot(trace[0]) && i < |trace|
    requires trace[i].pc == Top && trace[i].log != []
    ensures trace[i].log[|trace[i].log| - 1] != Consumed(Step)
  {
    RunInv(trace, acts, i);
  }

  /**
   In RUN mode no instruction executes whose address was in the table when its scan began; for
   address 0, which every free slot holds, unless all those slots were taken during the scan.
   */
  lemma RunStopsAtBreakpoints(trace: seq<Loop>, acts: seq<Action>, i: nat, k: nat)
    requires IsRun(trace, acts) && Boot(trace[0]) && i < |trace|
    requires k < |trace[i].log| && trace[i].log[k].Executed? && trace[i].log[k].byRun
    ensures var e := trace[i].log[k];
            (e.addr != 0 ==> e.addr !in e.scanStart) && Clear(e.addr, e.scanStart, e.scanEnd)
  {
    RunInv(trace, acts, i);
  }

  // ---- STOP

  /** Once STOP is in the mailbox, an instruction can only be one already past the check. */
  function Allowance(s: Loop): nat {
    if s.pc.Scan? || s.pc.Decide? || s.pc.Execute? then 1 else 0
  }

  function StopRank(s: Loop): nat {
    match s.pc
    case Ended => 0
    case Check => 1
    case Top => 2
    case Execute => 3
    case Decide(_) => 4
    case Scan(k) => if k <= MAX_BREAKPOINTS then 5 + MAX_BREAKPOINTS - k else 5
  }

  function ThreadSteps(acts: seq<Action>): nat {
    if acts == [] then 0
    else ThreadSteps(acts[..|acts| - 1]) + (if acts[|acts| - 1].Thread? then 1 else 0)
  }

  lemma ThreadKeepsStop(s: Loop, next: u32)
    requires s.mode == Stop
    ensures var s' := ThreadStep(s, next);
            && s'.mode == Stop
            && s'.executed + Allowance(s') <= s.executed + Allowance(s)
            && (s.pc != Ended ==> StopRank(s') < StopRank(s))
            && (s.pc == Ended ==> s' == s)
  {
  }

  /**
   A STOP that no later command overwrites stays in the mailbox, lets at most one more instruction
   through, and ends the thread within `StopRank` of its own steps.
   */
  lemma {:induction false} StopIsNotLost(trace: seq<Loop>, acts: seq<Action>, i: nat, j: nat)
    requires IsRun(trace, acts) && i <= j < |trace|
    requires trace[i].mode == Stop && forall k :: i <= k < j ==> !acts[k].Command?
    ensures trace[j].mode == Stop
    ensures trace[j].executed + Allowance(trace[j]) <= trace[i].executed + Allowance(trace[i])
    ensures trace[j].executed <= trace[i].executed + 1
    ensures trace[j].pc == Ended || StopRank(trace[j]) + ThreadSteps(acts[i..j]) <= StopRank(trace[i])
    decreases j - i
  {
    if i == j {
      assert acts[i..j] == [];
    } else {
      StopIsNotLost(trace, acts, i, j - 1);
      assert acts[i..j][..j - 1 - i] == acts[i..j - 1];
      assert acts[i..j][j - 1 - i] == acts[j - 1];
      match acts[j - 1]
      case Thread(next) => ThreadKeepsStop(trace[j - 1], next);
      case Breakpoint(_) =>
      case Command(_) => assert false;
    }
  }

  /** So after enough steps of its own the thread has ended, wherever it was when STOP arrived. */
  lemma StopEndsTheThread(trace: seq<Loop>, acts: seq<Action>, i: nat, j: nat)
    requires IsRun(trace, acts) && Boot(trace[0]) && i <= j < |trace|
    requires trace[i].mode == Stop && forall k :: i <= k < j ==> !acts[k].Command?
    requires ThreadSteps(acts[i..j]) > MAX_BREAKPOINTS + 5
    ensures trace[j].pc == Ended
  {
    StopIsNotLost(trace, acts, i, j);
  }

  // ---- a pass of the loop with nobody else running

  /** n steps of the thread alone. */
  function Alone(s: Loop, next: u32, n: nat): Loop
    decreases n
  {
    if n == 0 then s else Alone(ThreadStep(s, next), next, n - 1)
  }

  lemma {:induction false} AloneConcat(s: Loop, next: u32, m: nat, n: nat)
    ensures Alone(s, next, m + n) == Alone(Alone(s, next, m), next, n)
    decreases m
  {
    hide ThreadStep;
    if m > 0 {
      AloneConcat(ThreadStep(s, next), next, m - 1, n);
    }
  }

  /** The scan finds the first slot holding the address, or reaches the end of the table. */
  lemma {:induction false} ScanAlone(s: Loop, next: u32, k: nat)
    requires k <= MAX_BREAKPOINTS && s.pc == Scan(k)
    ensures var hit := FirstFrom(s.table, s.addr, k);
            Alone(s, next, hit - k + 1) == s.(pc := Decide(hit < MAX_BREAKPOINTS))
    decreases MAX_BREAKPOINTS - k
  {
    hide Extends;
    var t := ThreadStep(s, next);
    if k < MAX_BREAKPOINTS && s.table[k] != s.addr {
      ScanAlone(t, next, k + 1);
    } else {
      assert Alone(t, next, 0) == t;
    }
  }

  /** What one pass comes to: from the check, ... */
  function FromCheck(s: Loop, next: u32): Loop {
    if s.mode == Stop then s.(pc := Ended)
    else if s.running && s.addr in s.table then s.(scanStart := s.table, proceed := false, pc := Top)
    else
      var u := if s.running then s.(scanStart := s.table) else s;
      u.(addr := next, pc := Top, executed := u.executed + 1,
         log := u.log + [Executed(u.addr, u.running, u.scanStart, u.table)])
  }

  /** ... and from the top. */
  function Pass(s: Loop, next: u32): Loop {
    var t := if s.proceed then s.(pc := Check) else Consume(s);
    if t.pc == Check then FromCheck(t, next) else t
  }

  lemma TwoAlone(s: Loop, next: u32)
    ensures Alone(s, next, 1) == ThreadStep(s, next)
    ensures Alone(s, next, 2) == ThreadStep(ThreadStep(s, next), next)
  {
    hide ThreadStep;
    assert Alone(ThreadStep(s, next), next, 1) == Alone(ThreadStep(ThreadStep(s, next), next), next, 0);
  }

  /** From the decision on: back to the top, with or without the instruction. */
  lemma DecideAlone(s: Loop, next: u32, found: bool)
    requires s.pc == Decide(found)
    ensures Alone(s, next, if found then 1 else 2) ==
            if found then s.(proceed := false, pc := Top)
            else s.(addr := next, pc := Top, executed := s.executed + 1,
                    log := s.log + [Executed(s.addr, s.running, s.scanStart, s.table)])
  {
    TwoAlone(s, next);
    hide Alone;
  }

  lemma HitIff(t: Table, v: u32)
    ensures FirstFrom(t, v, 0) < MAX_BREAKPOINTS <==> v in t
  {
    var hit := FirstFrom(t, v, 0);
    assert hit < MAX_BREAKPOINTS ==> t[hit] == v;
    hide FirstFrom;
  }

  lemma CheckToScan(s: Loop, next: u32)
    requires s.pc == Check && s.mode != Stop && s.running
    ensures ThreadStep(s, next) == s.(pc := Scan(0), scanStart := s.table)
  {
  }

  lemma ScannedAlone(s: Loop, next: u32)
    requires s.pc == Check && s.mode != Stop && s.running
    ensures var hit := FirstFrom(s.table, s.addr, 0);
            Alone(s, next, hit + 2) == s.(pc := Decide(hit < MAX_BREAKPOINTS), scanStart := s.table)
  {
    CheckToScan(s, next);
    TwoAlone(s, next);
    hide ThreadStep, Alone, FirstFrom;
    ScanAlone(s.(pc := Scan(0), scanStart := s.table), next, 0);
    AloneConcat(s, next, 1, FirstFrom(s.table, s.addr, 0) + 1);
  }

  lemma ScanningPass(s: Loop, next: u32) returns (n: nat)
    requires s.pc == Check && s.mode != Stop && s.running
    ensures Alone(s, next, n) == FromCheck(s, next)
  {
    hide ThreadStep, Alone, FirstFrom;
    var hit := FirstFrom(s.table, s.addr, 0);
    var found := hit < MAX_BREAKPOINTS;
    var steps := if found then 1 else 2;
    HitIff(s.table, s.addr);
    ScannedAlone(s, next);
    DecideAlone(s.(pc := Decide(found), scanStart := s.table), next, found);
    AloneConcat(s, next, hit + 2, steps);
    n := hit + 2 + steps;
  }

  lemma CheckAlone(s: Loop, next: u32) returns (n: nat)
    requires s.pc == Check
    ensures Alone(s, next, n) == FromCheck(s, next)
  {
    TwoAlone(s, next);
    hide Alone;
    if s.mode == Stop {
      n := 1;
    } else if s.running {
      n := ScanningPass(s, next);
    } else {
      n := 2;
    }
  }

  /** Undisturbed, the thread gets through a pass in its own steps. */
  lemma PassIsAlone(s: Loop, next: u32) returns (n: nat)
    requires s.pc == Top
    ensures Alone(s, next, n) == Pass(s, next)
  {
    var t := ThreadStep(s, next);
    TwoAlone(s, next);
    hide FromCheck;
    n := 1;
    if t.pc == Check {
      var k := CheckAlone(t, next);
      AloneConcat(s, next, 1, k);
      n := 1 + k;
    }
  }
}
