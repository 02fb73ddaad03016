/** The stack object: pushes and pulls through the bus, at the stack pointer. */
module CpuStacks {
  import opened Bytes
  import opened BusMemory
  import opened BusModel
  import opened CpuRegisters
  import opened CpuMachine

  class Stack {
    const registers: Registers
    const bus: Bus

    constructor (registers: Registers, bus: Bus)
      ensures this.registers == registers && this.bus == bus
    {
      this.registers, this.bus := registers, bus;
    }

    ghost function State(): Machine
      requires bus.Valid()
      reads registers, bus.Cells(), bus.port.outputPort.data
    {
      Machine(registers.Value(), bus.Contents())
    }

    method Push(v: u8)
      requires bus.Valid() && InRange(bus.Contents(), registers.stackPointer.value)
      modifies registers, bus.Cells()
      ensures State() == old(State()).Push(v)
    {
      var sp := registers.stackPointer;
      bus.Write(sp.value, v);
      registers.SetStackPointer(Trunc16(sp.value - 1));
    }

    method Pull() returns (v: u8)
      requires bus.Valid() && InRange(bus.Contents(), registers.stackPointer.value + 1)
      modifies registers
      ensures (State(), v) == old(State()).Pull()
    {
      var sp := registers.stackPointer;
      registers.SetStackPointer(Trunc16(sp.value + 1));
      v := bus.Read(sp.value + 1);
    }
  }
}
