/** The run loop driving the processor: it refines the loop whose instructions were left open. */
module CpuThread {
  import opened Bytes
  import CpuCore
  import RunLoop

  /** The loop, the processor it drives, and the instructions that processor has executed. */
  datatype Thread = Thread(loop: RunLoop.Loop, cpu: CpuCore.Cpu, ran: seq<u32>)

  /** A step of the thread, `junk` being for the instruction if it executes one, or of a writer. */
  datatype Action = Turn(junk: u32) | Command(mode: RunLoop.Mode) | Breakpoint(at: u32)

  /** The address of the instruction the thread will see next. */
  function NextAddress(t: Thread, junk: u32): u32 { CpuCore.InstructionAddress(CpuCore.Step(t.cpu, junk)) }

  function AbstractAction(t: Thread, a: Action): RunLoop.Action {
    match a
    case Turn(junk) => RunLoop.Thread(NextAddress(t, junk))
    case Command(mode) => RunLoop.Command(mode)
    case Breakpoint(at) => RunLoop.Breakpoint(at)
  }

  function Apply(t: Thread, a: Action): Thread {
    var loop := RunLoop.Apply(t.loop, AbstractAction(t, a));
    if a.Turn? && t.loop.pc == RunLoop.Execute
    then Thread(loop, CpuCore.Step(t.cpu, a.junk), t.ran + [a.junk])
    else t.(loop := loop)
  }

  ghost predicate IsRun(trace: seq<Thread>, acts: seq<Action>) {
    && |trace| == |acts| + 1
    && forall i :: 0 <= i < |acts| ==> trace[i + 1] == Apply(trace[i], acts[i])
  }

  ghost predicate Boot(t: Thread) {
    && RunLoop.Boot(t.loop) && t.loop.executed == 0 && t.ran == []
    && t.loop.addr == CpuCore.InstructionAddress(t.cpu)
  }

  function Loops(trace: seq<Thread>): (loops: seq<RunLoop.Loop>)
    ensures |loops| == |trace|
  {
    seq(|trace|, i requires 0 <= i < |trace| => trace[i].loop)
  }

  function Actions(trace: seq<Thread>, acts: seq<Action>): (abs: seq<RunLoop.Action>)
    requires |acts| <= |trace|
    ensures |abs| == |acts|
  {
    seq(|acts|, i requires 0 <= i < |acts| => AbstractAction(trace[i], acts[i]))
  }

  /** Every run of the processor under the loop is a run of the loop. */
  lemma Refines(trace: seq<Thread>, acts: seq<Action>)
    requires IsRun(trace, acts)
    ensures RunLoop.IsRun(Loops(trace), Actions(trace, acts))
  {
    hide RunLoop.Apply, AbstractAction;
    forall i | 0 <= i < |acts|
      ensures Loops(trace)[i + 1] == RunLoop.Apply(Loops(trace)[i], Actions(trace, acts)[i])
    {
      assert trace[i + 1] == Apply(trace[i], acts[i]);
    }
  }

  /** The loop's address is the processor's, and the processor has run exactly the instructions counted. */
  predicate InStep(cpu0: CpuCore.Cpu, t: Thread) {
    && t.loop.addr == CpuCore.InstructionAddress(t.cpu)
    && t.cpu == CpuCore.Run(cpu0, t.ran) && t.loop.executed == |t.ran|
  }

  lemma RunSnoc(c: CpuCore.Cpu, junks: seq<u32>, junk: u32)
    ensures CpuCore.Run(c, junks + [junk]) == CpuCore.Step(CpuCore.Run(c, junks), junk)
  {
    hide CpuCore.Step;
    CpuCore.RunConcat(c, junks, [junk]);
    var d := CpuCore.Run(c, junks);
    assert CpuCore.Run(d, [junk]) == CpuCore.Run(CpuCore.Step(d, junk), []);
  }

  lemma StaysInStep(cpu0: CpuCore.Cpu, t: Thread, a: Action)
    requires InStep(cpu0, t)
    ensures InStep(cpu0, Apply(t, a))
  {
    hide CpuCore.Step, CpuCore.InstructionAddress, CpuCore.Run;
    if a.Turn? && t.loop.pc == RunLoop.Execute {
      RunSnoc(cpu0, t.ran, a.junk);
    }
  }

  lemma {:induction false} AlwaysInStep(trace: seq<Thread>, acts: seq<Action>, i: nat)
    requires IsRun(trace, acts) && Boot(trace[0]) && i < |trace|
    ensures InStep(trace[0].cpu, trace[i])
  {
    hide CpuCore.Step, CpuCore.InstructionAddress, Apply;
    if i > 0 {
      AlwaysInStep(trace, acts, i - 1);
      assert trace[i] == Apply(trace[i - 1], acts[i - 1]);
      hide CpuCore.Run, InStep;
      StaysInStep(trace[0].cpu, trace[i - 1], acts[i - 1]);
    }
  }

  /** When RUN is about to execute, the processor's computed address was not in the table at the scan. */
  lemma ExecutesOffBreakpoints(trace: seq<Thread>, acts: seq<Action>, i: nat)
    requires IsRun(trace, acts) && Boot(trace[0]) && i < |trace|
    requires trace[i].loop.pc == RunLoop.Execute && trace[i].loop.running
    ensures var address := CpuCore.InstructionAddress(trace[i].cpu);
            address != 0 ==> address !in trace[i].loop.scanStart
  {
    Refines(trace, acts);
    AlwaysInStep(trace, acts, i);
    RunLoop.RunInv(Loops(trace), Actions(trace, acts), i);
    hide RunLoop.GoodEvents, RunLoop.StepPhase, CpuCore.InstructionAddress, CpuCore.Run;
  }

  /** Once STOP is in the mailbox, and no command replaces it, at most one more instruction is counted. */
  lemma CountsAtMostOne(trace: seq<Thread>, acts: seq<Action>, i: nat, j: nat)
    requires IsRun(trace, acts) && Boot(trace[0]) && i <= j < |trace|
    requires trace[i].loop.mode == RunLoop.Stop && forall k :: i <= k < j ==> !acts[k].Command?
    ensures trace[j].loop.executed <= trace[i].loop.executed + 1
  {
    hide IsRun, Boot, RunLoop.IsRun, RunLoop.Boot, AbstractAction;
    RunShape(trace, acts);
    Refines(trace, acts);
    RunLoop.StopIsNotLost(Loops(trace), Actions(trace, acts), i, j);
  }

  lemma RunShape(trace: seq<Thread>, acts: seq<Action>)
    requires IsRun(trace, acts) && Boot(trace[0])
    ensures |trace| == |acts| + 1 && RunLoop.Boot(Loops(trace)[0])
    ensures forall k :: 0 <= k < |acts| ==> Actions(trace, acts)[k].Command? == acts[k].Command?
  {
    hide Apply, CpuCore.InstructionAddress, CpuCore.Step;
  }

  /** So the processor executes at most one more instruction. */
  lemma StopsWithinOneInstruction(trace: seq<Thread>, acts: seq<Action>, i: nat, j: nat)
    requires IsRun(trace, acts) && Boot(trace[0]) && i <= j < |trace|
    requires trace[i].loop.mode == RunLoop.Stop && forall k :: i <= k < j ==> !acts[k].Command?
    ensures trace[j].cpu == trace[i].cpu || exists junk :: trace[j].cpu == CpuCore.Step(trace[i].cpu, junk)
  {
    hide IsRun, Boot, CpuCore.Step, CpuCore.InstructionAddress, CpuCore.Run;
    CountsAtMostOne(trace, acts, i, j);
    AlwaysInStep(trace, acts, i);
    AlwaysInStep(trace, acts, j);
    RanExtends(trace, acts, i, j);
    RanOneMore(trace[0].cpu, trace[i], trace[j]);
  }

  lemma RanOneMore(cpu0: CpuCore.Cpu, t: Thread, u: Thread)
    requires InStep(cpu0, t) && InStep(cpu0, u) && t.ran <= u.ran && |u.ran| <= |t.ran| + 1
    ensures u.cpu == t.cpu || exists junk :: u.cpu == CpuCore.Step(t.cpu, junk)
  {
    hide CpuCore.Step, CpuCore.InstructionAddress, CpuCore.Run;
    if |u.ran| == |t.ran| + 1 {
      var junk := u.ran[|t.ran|];
      assert u.ran == t.ran + [junk];
      RunSnoc(cpu0, t.ran, junk);
    } else {
      assert u.ran == t.ran;
    }
  }

  lemma {:induction false} RanExtends(trace: seq<Thread>, acts: seq<Action>, i: nat, j: nat)
    requires IsRun(trace, acts) && i <= j < |trace|
    ensures trace[i].ran <= trace[j].ran
    decreases j - i
  {
    hide CpuCore.Step, RunLoop.Apply, AbstractAction;
    if i < j {
      RanExtends(trace, acts, i, j - 1);
      assert trace[j] == Apply(trace[j - 1], acts[j - 1]);
    }
  }
}
