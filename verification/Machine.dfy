/** The machine an instruction works on: the register file and the memories behind the bus. */
module CpuMachine {
  import opened Bytes
  import opened BusMemory
  import opened CpuRegisters

  datatype Machine = Machine(r: Regs, m: Memory) {
    function Load(addr: u32): u8 { Read(m, addr) }

    function Store(addr: u32, v: u8): Machine { this.(m := Write(m, addr, v)) }

    /** `snes_cpu_stack_push`: the byte goes to bank 0, then the pointer moves down. */
    function Push(v: u8): Machine {
      this.(m := Write(m, r.sp.value, v), r := r.SetSp(Trunc16(r.sp.value - 1)))
    }

    /** `snes_cpu_stack_pull`: the pointer moves up in 16 bits, but the read address is not truncated. */
    function Pull(): (Machine, u8) {
      (this.(r := r.SetSp(Trunc16(r.sp.value + 1))), Read(m, r.sp.value + 1))
    }

    /** High byte first, so that the word lies little-endian in memory. */
    function PushWord(v: u16): Machine { Push(High(v)).Push(Low(v)) }

    function PullWord(): (Machine, u16) {
      var (s, low) := Pull();
      var (s, high) := s.Pull();
      (s, Word(low, high))
    }

    function WithRegs(r': Regs): Machine { this.(r := r') }
  }
}
