/** The CPU object: the instruction read ahead, the breakpoint table, and one turn of the run loop in place. */
module ProcessorModel {
  import opened Bytes
  import opened AddressResolver
  import opened BusMemory
  import opened BusModel
  import opened Breakpoints
  import opened CpuCore
  import opened CpuMachine
  import opened CpuRegisters
  import opened AddressingModes
  import opened Mnemonics
  import opened Opcodes
  import RunLoop

  /** The operand bytes from `pc` on can be read. */
  predicate OperandInRange(m: Memory, pc: u16, size: nat)
    decreases size
  {
    size == 0 || (InRange(m, pc) && OperandInRange(m, Trunc16(pc + 1), size - 1))
  }

  predicate MayPrefetch(s: Machine) {
    var at := s.r.pc + s.r.ProgramBank();
    InRange(s.m, at) && OperandInRange(s.m, Trunc16(s.r.pc + 1), OperandSize(s.r, Ops(Read(s.m, at))))
  }

  /** Resolving and executing the current instruction fails no assertion. */
  predicate MayExecute(c: CpuCore.Cpu, junk: u32) {
    var op := c.cur.opcode;
    && MayResolve(c.s, op.mode, c.cur.operand)
    && Proceeds(c.s, op.mne, Resolve(c.s, op.mne, op.mode, c.cur.operand, junk))
  }

  class Processor {
    const registers: Registers
    const bus: Bus
    const executor: Executor
    const breakpoints: array<u32>
    var current: Instruction
    var executionMode: RunLoop.Mode

    ghost predicate Valid() {
      && executor.Valid() && executor.registers == registers && executor.bus == bus
      && breakpoints.Length == MAX_BREAKPOINTS
    }

    ghost function Value(): CpuCore.Cpu
      requires Valid()
      reads this, registers, bus.Cells(), bus.port.outputPort.data
    {
      CpuCore.Cpu(executor.State(), current)
    }

    ghost function BreakpointTable(): Table
      requires Valid()
      reads breakpoints
    {
      breakpoints[..]
    }

    /** Power-up: the reset vector in PC, an empty table and mailbox, and the first instruction read ahead. */
    constructor (bus: Bus, reset: u16)
      requires bus.Valid() && MayPrefetch(Machine(INITIAL.(pc := reset), bus.Contents()))
      ensures Valid() && this.bus == bus && fresh(registers) && fresh(breakpoints)
      ensures Value() == PowerUp(bus.Contents(), reset)
      ensures forall k :: 0 <= k < MAX_BREAKPOINTS ==> BreakpointTable()[k] == 0
      ensures executionMode == RunLoop.Unknown
    {
      hide MayPrefetch, Prefetch, Regs.EmulationSet, Regs.ResetFlags, FromByte, InRange, Decoded;
      var registers := new Registers();
      var executor := new Executor(registers, bus);
      this.registers, this.bus, this.executor := registers, bus, executor;
      breakpoints := new u32[MAX_BREAKPOINTS](_ => 0);
      executionMode := RunLoop.Unknown;
      new;
      registers.SetProgramCounter(reset);
      UpdateNextInstruction();
    }

    /** The operand, byte by byte, the counter moving past each. */
    method FetchOperand(size: nat) returns (operand: nat)
      requires Valid() && OperandInRange(executor.State().m, registers.pc, size)
      modifies registers
      ensures operand == OperandAt(old(executor.State().m), old(registers.pc), size)
      ensures registers.Value() == old(registers.Value()).(pc := Trunc16(old(registers.pc) + size))
    {
      hide BusMemory.Read, InRange, Gathered, OperandInRange, OperandAt;
      ghost var s := executor.State();
      operand := 0;
      var weight: nat := 1;
      GatherStart(s.m, s.r.pc, size);
      for i := 0 to size
        invariant registers.Value() == s.r.(pc := Trunc16(s.r.pc + i))
        invariant Gathered(s.m, s.r.pc, size, registers.pc, size - i, operand, weight)
      {
        GatherByte(s.m, s.r.pc, size, registers.pc, size - i, operand, weight);
        var b := bus.Read(registers.pc);
        var shifted := weight * b;
        operand := operand + shifted;
        weight := 0x100 * weight;
        registers.IncProgramCounter();
        NextCounter(s.r.pc, i);
      }
      GatherEnd(s.m, s.r.pc, size, registers.pc, operand, weight);
    }

    method UpdateNextInstruction()
      requires Valid() && MayPrefetch(executor.State())
      modifies registers, this`current
      ensures Value() == Prefetch(old(executor.State()))
    {
      hide BusMemory.Read, InRange, Ops, OperandSize, OperandAt, OperandInRange, Power256;
      ghost var s := executor.State();
      var word := bus.Read(registers.pc + registers.programBank * 0x1_0000);
      registers.IncProgramCounter();
      var opcode := Ops(word);
      var size := OperandSize(registers.Value(), opcode);
      SizeIgnoresPc(s.r, registers.pc, opcode);
      var operand := FetchOperand(size);
      OperandFits(size);
      current := Instruction(word, opcode, size, operand);
    }

    /** `snes_cpu_execute_instruction`. */
    method ExecuteInstruction(junk: u32)
      requires Valid() && MayExecute(Value(), junk)
      modifies registers, bus.Cells()
      ensures executor.State() == Executed(old(Value()), junk) && current == old(current)
    {
      hide MayResolve, Proceeds, Resolve, Instructions.Execute;
      var op := current.opcode;
      var eff := Decode(bus, registers, op.mne, op.mode, current.operand, junk);
      executor.Execute(op.mne, eff);
    }

    /** One turn of the run loop. */
    method Turn(junk: u32)
      requires Valid() && MayExecute(Value(), junk) && MayPrefetch(Executed(Value(), junk))
      modifies registers, this`current, bus.Cells()
      ensures Value() == Step(old(Value()), junk)
    {
      hide MayExecute, MayPrefetch, Executed, Prefetch;
      ExecuteInstruction(junk);
      UpdateNextInstruction();
    }

    /** The scan of the table for the address of the current instruction. */
    method IsBreakpoint() returns (found: bool)
      requires Valid()
      ensures found <==> InstructionAddress(Value()) in BreakpointTable()
    {
      var address := Trunc32(registers.pc + registers.programBank * 0x1_0000 - current.operandSize - 1);
      found := false;
      for i := 0 to MAX_BREAKPOINTS
        invariant !found
        invariant forall k :: 0 <= k < i ==> breakpoints[k] != address
      {
        if address == breakpoints[i] {
          found := true;
          return;
        }
      }
    }

    method SetExecutionMode(mode: RunLoop.Mode)
      modifies `executionMode
      ensures executionMode == mode
    {
      executionMode := mode;
    }

    /** The state of the loop before a pass, its counter at 0. */
    ghost function LoopState(proceed: bool, running: bool): RunLoop.Loop
      requires Valid()
      reads this, registers, bus.Cells(), bus.port.outputPort.data, breakpoints
    {
      RunLoop.Loop(executionMode, false, proceed, running, RunLoop.Top, InstructionAddress(Value()), BreakpointTable(),
                   BreakpointTable(), 0, [])
    }

    /** The head of a pass: the mailbox, if the thread is not running on. */
    method TakeCommand(proceed: bool, running: bool) returns (proceed': bool, running': bool, ended: bool)
      requires Valid() && (proceed || executionMode != RunLoop.Unknown)
      modifies `executionMode
      ensures var s := old(LoopState(proceed, running));
              var t := if proceed then s.(pc := RunLoop.Check) else RunLoop.Consume(s);
              && executionMode == t.mode && ended == t.pc.Ended?
              && (!ended ==> proceed' == t.proceed && running' == t.running)
    {
      hide InstructionAddress;
      proceed', running', ended := proceed, running, false;
      if !proceed {
        match executionMode {
          case Run => proceed', running' := true, true;
          case Step => proceed', running' := false, false;
          case Stop =>
            ended := true;
            return;
        }
        executionMode := RunLoop.Unknown;
      }
    }

    /**
     One pass of the loop of `snes_cpu_execute` with nobody else running: the mailbox if the thread
     is not running on, the check for STOP, the breakpoints, the instruction.
     */
    method Iterate(proceed: bool, running: bool, junk: u32) returns (proceed': bool, running': bool, ended: bool)
      requires Valid() && (proceed || executionMode != RunLoop.Unknown)
      requires MayExecute(Value(), junk) && MayPrefetch(Executed(Value(), junk))
      modifies registers, this`current, this`executionMode, bus.Cells()
      ensures var t := RunLoop.Pass(old(LoopState(proceed, running)), InstructionAddress(Step(old(Value()), junk)));
              && executionMode == t.mode && ended == t.pc.Ended?
              && (!ended ==> proceed' == t.proceed && running' == t.running)
              && Value() == (if t.executed == 1 then Step(old(Value()), junk) else old(Value()))
    {
      hide MayExecute, MayPrefetch, Step, InstructionAddress, RunLoop.Consume;
      RunLoop.ConsumeShape(LoopState(proceed, running));
      proceed', running', ended := TakeCommand(proceed, running);
      if ended {
        return;
      }
      if executionMode == RunLoop.Stop {
        ended := true;
        return;
      }
      var hit := false;
      if running' {
        hit := IsBreakpoint();
      }
      if hit {
        proceed' := false;
      } else {
        Turn(junk);
      }
    }

    /** The first free slot is taken; -1 reports a full table. */
    method SetBreakpoint(addr: u32) returns (ret: int)
      requires Valid()
      modifies breakpoints
      ensures BreakpointTable() == Breakpoints.Set(old(BreakpointTable()), addr)
      ensures ret == if 0 in old(BreakpointTable()) then 0 else -1
    {
      ghost var before := BreakpointTable();
      ret := -1;
      for i := 0 to MAX_BREAKPOINTS
        invariant BreakpointTable() == before
        invariant FirstFrom(before, 0, 0) == FirstFrom(before, 0, i)
      {
        if breakpoints[i] == 0 {
          breakpoints[i] := addr;
          ret := 0;
          return;
        }
      }
    }
  }

  /** The operand bytes read so far and those from `pc` on make up the operand. */
  predicate Gathered(m: Memory, start: u16, size: nat, pc: u16, left: nat, operand: nat, weight: nat) {
    && operand < weight && OperandInRange(m, pc, left)
    && operand + weight * OperandAt(m, pc, left) == OperandAt(m, start, size)
  }

  lemma GatherStart(m: Memory, start: u16, size: nat)
    requires OperandInRange(m, start, size)
    ensures Gathered(m, start, size, start, size, 0, 1)
  {
  }

  lemma GatherEnd(m: Memory, start: u16, size: nat, pc: u16, operand: nat, weight: nat)
    requires Gathered(m, start, size, pc, 0, operand, weight)
    ensures operand == OperandAt(m, start, size)
  {
  }

  lemma NextCounter(pc: u16, i: nat)
    ensures Trunc16(Trunc16(pc + i) + 1) == Trunc16(pc + (i + 1))
  {
  }

  lemma GatherByte(m: Memory, start: u16, size: nat, pc: u16, left: nat, operand: nat, weight: nat)
    requires 0 < left && Gathered(m, start, size, pc, left, operand, weight)
    ensures InRange(m, pc) && weight * Read(m, pc) >= 0
    ensures Gathered(m, start, size, Trunc16(pc + 1), left - 1, operand + weight * Read(m, pc), 0x100 * weight)
  {
    hide BusMemory.Read;
    Shift(weight, Read(m, pc), OperandAt(m, Trunc16(pc + 1), left - 1));
  }

  lemma Shift(weight: nat, b: int, rest: nat)
    requires 0 <= b < 0x100
    ensures weight * (b + 0x100 * rest) == weight * b + 0x100 * weight * rest
    ensures weight * b + weight <= 0x100 * weight
  {
    assert weight * (0xFF - b) >= 0;
  }
}
